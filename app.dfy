/**
 * The request handlers and the background render of api/app/main.py, over
 * the store of api/app/storage/sqlite.py.
 *
 * Every handler is a method on the store. What it commits is described by a
 * pure function returning the statements in order (`CreateJobWrites`,
 * `ReviewWrites`, `RenderWrites`); each method ensures that its effect on the
 * store is exactly those statements, and the lemmas beside the functions say
 * what the store answers afterwards. `uuid.uuid4()` and `datetime.utcnow()`
 * are supplied by the caller as `Stamp`s; the file system, the worker script
 * and ffprobe are described by `RenderEnv`.
 */
module App {
  import opened Wrappers
  import opened JobStates
  import opened Rows
  import opened Records
  import opened Storage
  import opened Journal
  import opened Consistency

  /**
   * The HTTP errors the handlers raise: 404 and 400 with their detail text,
   * and 422 when the request body fails validation.
   */
  datatype ApiError = NotFound(detail: string) | BadRequest(detail: string) | Unprocessable

  /** The body of a job creation request. */
  datatype JobCreate = JobCreate(title: string, purpose: string, tone: string, targetDurationSeconds: int)

  /** The body of a review request. */
  datatype ReviewCreate = ReviewCreate(decision: string, comment: Option<string>)

  /** A fresh id from `uuid.uuid4()` and the time from `datetime.utcnow()`. */
  datatype Stamp = Stamp(id: Uuid, at: Timestamp)

  // ----------------------------------------------------------------- _log

  // The actions and details of the audit entries the handlers write.
  const JobCreateAction: string := "job.create"
  const JobCreateDetail: string := "ジョブを作成"
  const RenderStartAction: string := "render.start"
  const RenderStartDetail: string := "動画合成を開始"
  const RenderCompleteAction: string := "render.complete"
  const RenderCompleteDetail: string := "動画合成が完了"
  const RenderFailedAction: string := "render.failed"
  const RenderFailedPrefix: string := "動画合成に失敗: "
  /** The message of the error raised when the worker leaves no video. */
  const OutputMissingText: string := "output video not found"
  const ReviewActionPrefix: string := "review."
  const ReviewDetailPrefix: string := "レビュー: "

  function LogEntry(jobId: Uuid, action: string, detail: string, s: Stamp): AuditLogRecord {
    AuditLogRecord(s.id, jobId, action, detail, s.at)
  }

  /** `_log`: appends one audit entry for the job. */
  method Log(store: Store, jobId: Uuid, action: string, detail: string, s: Stamp)
    requires store.Valid() && s.id !in Keys(store.db.auditLogs, AuditLogId)
    modifies store
    ensures store.Valid()
    ensures store.db == Apply(old(store.db), InsertAuditLog(LogEntry(jobId, action, detail, s)))
    ensures store.journal == old(store.journal) + [InsertAuditLog(LogEntry(jobId, action, detail, s))]
    ensures store.db.jobs == old(store.db).jobs
  {
    var ok := store.CreateAuditLog(LogEntry(jobId, action, detail, s));
  }

  // ------------------------------------------------- _get_default_project

  const DefaultProjectTitle: string := "デフォルトプロジェクト"

  /**
   * `_get_default_project`: the newest project when there is one, otherwise
   * a new project with the default title, which later calls then return.
   */
  method GetDefaultProject(store: Store, s: Stamp) returns (p: ProjectRecord)
    requires store.Valid()
    modifies store
    ensures store.Valid()
    ensures old(store.db.projects) != [] ==>
      p == ListProjects(old(store.db))[0] && store.db == old(store.db) && store.journal == old(store.journal)
    ensures old(store.db.projects) == [] ==>
      && p == ProjectRecord(s.id, DefaultProjectTitle, "", s.at)
      && store.db == Apply(old(store.db), InsertProject(p))
      && store.journal == old(store.journal) + [InsertProject(p)]
    ensures GetProject(store.db, p.id) == Some(p)
    ensures forall q :: q in store.db.projects ==> q.createdAt <= p.createdAt
  {
    var projects := ListProjects(store.db);
    assert |projects| == |store.db.projects| by {
      assert |multiset(projects)| == |multiset(store.db.projects)|;
    }
    if projects != [] {
      p := projects[0];
      assert p in multiset(store.db.projects);
      FindUnique(store.db.projects, ProjectId, p);
      forall q | q in store.db.projects ensures q.createdAt <= p.createdAt {
        assert q in multiset(projects);
        var i :| 0 <= i < |projects| && projects[i] == q;
      }
    } else {
      p := ProjectRecord(s.id, DefaultProjectTitle, "", s.at);
      var ok := store.CreateProject(p);
      assert store.db.projects == [p];
    }
  }

  // ------------------------------------------------------------ create_job

  /** The record `create_job` builds: queued, at the progress of QUEUED, no output yet. */
  function NewJob(jobId: Uuid, projectId: Uuid, payload: JobCreate, now: Timestamp): (j: JobRecord)
    ensures j.id == jobId && j.projectId == projectId
    ensures j.title == payload.title && j.purpose == payload.purpose && j.tone == payload.tone
    ensures j.targetDurationSeconds == payload.targetDurationSeconds
    ensures j.status == Queued && j.progressPercent == 0 && j.outputDurationSeconds == None
    ensures j.createdAt == now && j.updatedAt == now
  {
    JobRecord(jobId, projectId, payload.title, payload.purpose, payload.tone, payload.targetDurationSeconds,
      Queued, ProgressForStatus(Queued), None, now, now)
  }

  /** What creating a job commits: the job, then its `job.create` audit entry. */
  function CreateJobWrites(job: JobRecord, log: Stamp): seq<Write> {
    [InsertJob(job), InsertAuditLog(LogEntry(job.id, JobCreateAction, JobCreateDetail, log))]
  }

  /** The part `create_job` and `create_job_simple` share once the project is known. */
  method InsertNewJob(store: Store, projectId: Uuid, payload: JobCreate, jobId: Uuid, now: Timestamp, log: Stamp)
    returns (job: JobRecord)
    requires store.Valid()
    requires jobId !in Keys(store.db.jobs, JobRowId) && log.id !in Keys(store.db.auditLogs, AuditLogId)
    modifies store
    ensures store.Valid()
    ensures job == NewJob(jobId, projectId, payload, now)
    ensures store.db == ApplyAll(old(store.db), CreateJobWrites(job, log))
    ensures store.journal == old(store.journal) + CreateJobWrites(job, log)
    ensures projectId in Keys(old(store.db).projects, ProjectId) ==>
      AllAllowed(old(store.db), CreateJobWrites(job, log))
  {
    ghost var db0 := store.db;
    job := NewJob(jobId, projectId, payload, now);
    var ok := store.CreateJob(job);
    var w1 := InsertJob(job);
    KeysAppend(db0.jobs, JobRowId, JobToRow(job));
    Log(store, jobId, JobCreateAction, JobCreateDetail, log);
    var w2 := InsertAuditLog(LogEntry(jobId, JobCreateAction, JobCreateDetail, log));
    ApplyAllTwo(db0, w1, w2);
    ExtendRun(db0, [], w1);
    ExtendRun(db0, [w1], w2);
    assert [w1] + [w2] == CreateJobWrites(job, log);
  }

  /**
   * `create_job`: 422 for a non-positive target duration, 404 for an unknown
   * project (nothing written), otherwise the new job.
   */
  method CreateJob(store: Store, projectId: Uuid, payload: JobCreate, jobId: Uuid, now: Timestamp, log: Stamp)
    returns (r: Result<JobRecord, ApiError>)
    requires store.Valid()
    requires jobId !in Keys(store.db.jobs, JobRowId) && log.id !in Keys(store.db.auditLogs, AuditLogId)
    modifies store
    ensures store.Valid()
    ensures r.Failure? <==> payload.targetDurationSeconds <= 0 || GetProject(old(store.db), projectId).None?
    ensures r.Failure? ==>
      && r.error == (if payload.targetDurationSeconds <= 0 then Unprocessable else NotFound("project not found"))
      && store.db == old(store.db) && store.journal == old(store.journal)
    ensures r.Success? ==>
      && r.value == NewJob(jobId, projectId, payload, now)
      && store.db == ApplyAll(old(store.db), CreateJobWrites(r.value, log))
      && store.journal == old(store.journal) + CreateJobWrites(r.value, log)
    ensures old(Consistent(store.db)) ==> Consistent(store.db)
  {
    if payload.targetDurationSeconds <= 0 {
      return Failure(Unprocessable);
    }
    if GetProject(store.db, projectId).None? {
      return Failure(NotFound("project not found"));
    }
    ghost var db0 := store.db;
    var job := InsertNewJob(store, projectId, payload, jobId, now, log);
    if Consistent(db0) {
      ApplyAllKeepsConsistent(db0, CreateJobWrites(job, log));
    }
    r := Success(job);
  }

  /** Once created, `get_job` answers the new job and every other job is as it was. */
  lemma CreatedJobIsVisible(db: Db, job: JobRecord, log: Stamp)
    requires WellFormed(db) && job.id !in Keys(db.jobs, JobRowId)
    ensures StatusesValid(ApplyAll(db, CreateJobWrites(job, log)).jobs)
    ensures GetJob(ApplyAll(db, CreateJobWrites(job, log)), job.id) == Some(job)
    ensures forall x :: x != job.id ==> GetJob(ApplyAll(db, CreateJobWrites(job, log)), x) == GetJob(db, x)
  {
    var entry := LogEntry(job.id, JobCreateAction, JobCreateDetail, log);
    var d1 := Apply(db, InsertJob(job));
    var d2 := Apply(d1, InsertAuditLog(entry));
    ApplyAllTwo(db, InsertJob(job), InsertAuditLog(entry));
    assert ApplyAll(db, CreateJobWrites(job, log)) == d2;
    assert d2.jobs == d1.jobs;
    ApplyKeepsWellFormed(db, InsertJob(job));
    forall x ensures GetJob(d2, x) == if x == job.id then Some(job) else GetJob(db, x) {
      GetJobAfterInsert(db, job, x);
    }
  }

  /**
   * A new job's history is its `job.create` entry and nothing else: no
   * artifact, review or billing row can refer to an id that was not yet a job.
   */
  lemma CreatedJobHistory(db: Db, job: JobRecord, log: Stamp)
    requires Consistent(db) && job.id !in Keys(db.jobs, JobRowId)
    ensures ListAuditLogs(ApplyAll(db, CreateJobWrites(job, log)), job.id) ==
      [LogEntry(job.id, JobCreateAction, JobCreateDetail, log)]
    ensures ListArtifacts(ApplyAll(db, CreateJobWrites(job, log)), job.id) == []
    ensures ListReviews(ApplyAll(db, CreateJobWrites(job, log)), job.id) == []
    ensures ListBillingUsage(ApplyAll(db, CreateJobWrites(job, log)), job.id) == []
  {
    var entry := LogEntry(job.id, JobCreateAction, JobCreateDetail, log);
    var d2 := Apply(Apply(db, InsertJob(job)), InsertAuditLog(entry));
    ApplyAllTwo(db, InsertJob(job), InsertAuditLog(entry));
    assert ApplyAll(db, CreateJobWrites(job, log)) == d2;
    assert d2.auditLogs == db.auditLogs + [entry];
    assert d2.artifacts == db.artifacts && d2.reviews == db.reviews && d2.billingUsage == db.billingUsage;
    WhereAppend(db.auditLogs, AuditLogJobId, job.id, entry);
    NewestFirstWhereNone(db.auditLogs, AuditLogJobId, AuditLogCreatedAt, job.id);
    assert Where(db.auditLogs, AuditLogJobId, job.id) == [];
    NewestFirstSingle(entry, AuditLogCreatedAt);
    NewestFirstWhereNone(db.artifacts, ArtifactJobId, ArtifactCreatedAt, job.id);
    NewestFirstWhereNone(db.reviews, ReviewJobId, ReviewCreatedAt, job.id);
    NewestFirstWhereNone(db.billingUsage, BillingUsageJobId, BillingUsageCreatedAt, job.id);
  }

  // ----------------------------------------------------- create_job_simple

  /**
   * `create_job_simple`: like `create_job`, under the default project, which
   * is created first when the store has no project.
   */
  method CreateJobSimple(store: Store, payload: JobCreate, project: Stamp, jobId: Uuid, now: Timestamp, log: Stamp)
    returns (r: Result<JobRecord, ApiError>)
    requires store.Valid()
    requires jobId !in Keys(store.db.jobs, JobRowId) && log.id !in Keys(store.db.auditLogs, AuditLogId)
    modifies store
    ensures store.Valid()
    ensures r.Failure? <==> payload.targetDurationSeconds <= 0
    ensures r.Failure? ==> r.error == Unprocessable && store.db == old(store.db) && store.journal == old(store.journal)
    ensures r.Success? && old(store.db.projects) != [] ==>
      && r.value == NewJob(jobId, ListProjects(old(store.db))[0].id, payload, now)
      && store.db == ApplyAll(old(store.db), CreateJobWrites(r.value, log))
      && store.journal == old(store.journal) + CreateJobWrites(r.value, log)
    ensures r.Success? && old(store.db.projects) == [] ==>
      && r.value == NewJob(jobId, project.id, payload, now)
      && var created := ProjectRecord(project.id, DefaultProjectTitle, "", project.at);
         && store.db == ApplyAll(old(store.db), [InsertProject(created)] + CreateJobWrites(r.value, log))
         && store.journal == old(store.journal) + [InsertProject(created)] + CreateJobWrites(r.value, log)
    ensures old(Consistent(store.db)) ==> Consistent(store.db)
  {
    if payload.targetDurationSeconds <= 0 {
      return Failure(Unprocessable);
    }
    ghost var db0 := store.db;
    ghost var j0 := store.journal;
    var p := GetDefaultProject(store, project);
    ghost var db1 := store.db;
    ghost var ws: seq<Write> := if db0.projects == [] then [InsertProject(p)] else [];
    assert store.db == ApplyAll(db0, ws) && AllAllowed(db0, ws) by {
      if db0.projects == [] {
        ApplyAllOne(db0, InsertProject(p));
        ExtendRun(db0, [], InsertProject(p));
        assert [] + [InsertProject(p)] == ws;
      }
    }
    var job := InsertNewJob(store, p.id, payload, jobId, now, log);
    ApplyAllConcat(db0, ws, CreateJobWrites(job, log));
    if Consistent(db0) {
      ApplyAllKeepsConsistent(db0, ws);
      ApplyAllKeepsConsistent(db1, CreateJobWrites(job, log));
    }
    r := Success(job);
  }

  // ------------------------------------------------------------ review_job

  const UpperLetters: string := "ABCDEFGHIJKLMNOPQRSTUVWXYZ"
  const LowerLetters: string := "abcdefghijklmnopqrstuvwxyz"

  /** `str.lower` on the letters A to Z: the letter at the same place of the lower-case alphabet. */
  function LowerChar(c: char): (d: char)
    ensures !('A' <= d <= 'Z')
    ensures !('A' <= c <= 'Z') ==> d == c
    ensures forall k :: 0 <= k < 26 && c == UpperLetters[k] ==> d == LowerLetters[k]
  {
    if 'A' <= c <= 'Z' then (c as int + 32) as char else c
  }

  function Lower(s: string): (r: string)
    ensures |r| == |s|
    ensures forall i :: 0 <= i < |s| ==> !('A' <= r[i] <= 'Z')
    ensures forall i :: 0 <= i < |s| && !('A' <= s[i] <= 'Z') ==> r[i] == s[i]
    ensures forall i, k :: 0 <= i < |s| && 0 <= k < 26 && s[i] == UpperLetters[k] ==> r[i] == LowerLetters[k]
  {
    seq(|s|, i requires 0 <= i < |s| => LowerChar(s[i]))
  }

  /** The decision a review names, whatever its case: APPROVED or REJECTED, or none. */
  function ParseDecision(raw: string): (r: Option<JobStatus>)
    ensures r.Some? ==> (r.value == Approved || r.value == Rejected) && StatusValue(r.value) == Lower(raw)
    ensures r.None? ==> Lower(raw) != StatusValue(Approved) && Lower(raw) != StatusValue(Rejected)
  {
    var decision := Lower(raw);
    if decision == "approved" then Some(Approved)
    else if decision == "rejected" then Some(Rejected)
    else None
  }

  /**
   * The checks `review_job` makes before writing anything: the job exists,
   * the decision is approved or rejected, and the job may move to it.
   */
  function ReviewCheck(db: Db, jobId: Uuid, payload: ReviewCreate): (r: Result<JobStatus, ApiError>)
    requires StatusesValid(db.jobs)
    ensures r == Failure(NotFound("job not found")) <==> GetJob(db, jobId).None?
    ensures r.Success? <==>
      && GetJob(db, jobId).Some? && GetJob(db, jobId).value.status == NeedsReview
      && ParseDecision(payload.decision).Some?
    ensures r.Success? ==> r.value == ParseDecision(payload.decision).value
    ensures r.Failure? && GetJob(db, jobId).Some? ==>
      r.error == BadRequest(if ParseDecision(payload.decision).None? then "decision must be approved/rejected"
                            else "invalid job status transition")
  {
    match GetJob(db, jobId)
    case None => Failure(NotFound("job not found"))
    case Some(job) =>
      match ParseDecision(payload.decision)
      case None => Failure(BadRequest("decision must be approved/rejected"))
      case Some(next) =>
        CanTransitionExactly(job.status, next);
        if CanTransition(job.status, next) then Success(next)
        else Failure(BadRequest("invalid job status transition"))
  }

  /** What an accepted review commits: the review, the new status, the audit entry. */
  function ReviewWrites(jobId: Uuid, next: JobStatus, comment: Option<string>, review: Stamp,
                        updatedAt: Timestamp, log: Stamp): seq<Write>
  {
    var decision := StatusValue(next);
    [ InsertReview(ReviewRecord(review.id, jobId, decision, comment, review.at)),
      UpdateJob(jobId, StatusPatch(next, ProgressForStatus(next), updatedAt)),
      InsertAuditLog(LogEntry(jobId, ReviewActionPrefix + decision, ReviewDetailPrefix + decision, log)) ]
  }

  /**
   * `review_job`: the checks of `ReviewCheck`; when they pass, the review,
   * the status update and the audit entry, and the job read back.
   */
  method ReviewJob(store: Store, jobId: Uuid, payload: ReviewCreate, review: Stamp, updatedAt: Timestamp, log: Stamp)
    returns (r: Result<JobRecord, ApiError>)
    requires store.Valid()
    requires review.id !in Keys(store.db.reviews, ReviewId) && log.id !in Keys(store.db.auditLogs, AuditLogId)
    modifies store
    ensures store.Valid()
    ensures r.Failure? <==> ReviewCheck(old(store.db), jobId, payload).Failure?
    ensures r.Failure? ==>
      && r.error == ReviewCheck(old(store.db), jobId, payload).error
      && store.db == old(store.db) && store.journal == old(store.journal)
    ensures r.Success? ==>
      && var next := ReviewCheck(old(store.db), jobId, payload).value;
         && store.db == ApplyAll(old(store.db), ReviewWrites(jobId, next, payload.comment, review, updatedAt, log))
         && store.journal == old(store.journal) + ReviewWrites(jobId, next, payload.comment, review, updatedAt, log)
         && GetJob(store.db, jobId) == Some(r.value)
         && r.value == GetJob(old(store.db), jobId).value.(status := next, progressPercent := 100, updatedAt := updatedAt)
    ensures old(Consistent(store.db)) ==> Consistent(store.db)
  {
    var job := GetJob(store.db, jobId);
    if job.None? {
      return Failure(NotFound("job not found"));
    }
    var decision := Lower(payload.decision);
    if decision != "approved" && decision != "rejected" {
      return Failure(BadRequest("decision must be approved/rejected"));
    }
    var next := if decision == "approved" then Approved else Rejected;
    if !CanTransition(job.value.status, next) {
      return Failure(BadRequest("invalid job status transition"));
    }
    ghost var db0 := store.db;
    var updated := RecordReview(store, jobId, decision, next, payload.comment, review, updatedAt, log);
    if Consistent(db0) {
      ApplyAllKeepsConsistent(db0, ReviewWrites(jobId, next, payload.comment, review, updatedAt, log));
    }
    r := Success(updated);
  }

  /** The writes of `review_job` once its checks have passed, and the job read back. */
  method RecordReview(store: Store, jobId: Uuid, decision: string, next: JobStatus, comment: Option<string>,
                      review: Stamp, updatedAt: Timestamp, log: Stamp)
    returns (updated: JobRecord)
    requires store.Valid() && GetJob(store.db, jobId).Some? && decision == StatusValue(next)
    requires review.id !in Keys(store.db.reviews, ReviewId) && log.id !in Keys(store.db.auditLogs, AuditLogId)
    modifies store
    ensures store.Valid()
    ensures store.db == ApplyAll(old(store.db), ReviewWrites(jobId, next, comment, review, updatedAt, log))
    ensures store.journal == old(store.journal) + ReviewWrites(jobId, next, comment, review, updatedAt, log)
    ensures AllAllowed(old(store.db), ReviewWrites(jobId, next, comment, review, updatedAt, log))
    ensures GetJob(store.db, jobId) == Some(updated)
    ensures updated == GetJob(old(store.db), jobId).value.(status := next, progressPercent := ProgressForStatus(next),
      updatedAt := updatedAt)
  {
    ghost var db0, j0 := store.db, store.journal;
    var w1 := InsertReview(ReviewRecord(review.id, jobId, decision, comment, review.at));
    var ok := store.CreateReview(w1.review);
    var w2 := UpdateJob(jobId, StatusPatch(next, ProgressForStatus(next), updatedAt));
    var read := store.UpdateJobStatus(jobId, next, ProgressForStatus(next), updatedAt);
    ghost var db2 := store.db;
    var w3 := InsertAuditLog(LogEntry(jobId, ReviewActionPrefix + decision, ReviewDetailPrefix + decision, log));
    Log(store, jobId, ReviewActionPrefix + decision, ReviewDetailPrefix + decision, log);
    GetJobReadsJobs(store.db, db2, jobId);
    updated := read.value;
    ghost var ws := ReviewWrites(jobId, next, comment, review, updatedAt, log);
    assert |ws| == 3 && ws[0] == w1 && ws[1] == w2 && ws[2] == w3;
    assert ws == [w1, w2, w3];
    AppendThree(j0, w1, w2, w3);
    ApplyAllThree(db0, w1, w2, w3);
    ReviewAllowed(db0, jobId, next, comment, review, updatedAt, log);
  }

  /** The statements of an accepted review may be issued: fresh ids, an existing job, progress from status. */
  lemma ReviewAllowed(db: Db, jobId: Uuid, next: JobStatus, comment: Option<string>, review: Stamp,
                      updatedAt: Timestamp, log: Stamp)
    requires WellFormed(db) && GetJob(db, jobId).Some?
    requires review.id !in Keys(db.reviews, ReviewId) && log.id !in Keys(db.auditLogs, AuditLogId)
    ensures AllAllowed(db, ReviewWrites(jobId, next, comment, review, updatedAt, log))
  {
    var decision := StatusValue(next);
    var w1 := InsertReview(ReviewRecord(review.id, jobId, decision, comment, review.at));
    var w2 := UpdateJob(jobId, StatusPatch(next, ProgressForStatus(next), updatedAt));
    var w3 := InsertAuditLog(LogEntry(jobId, ReviewActionPrefix + decision, ReviewDetailPrefix + decision, log));
    assert ReviewWrites(jobId, next, comment, review, updatedAt, log) == [w1, w2, w3];
    var d1 := Apply(db, w1);
    PatchRowsKeepsShape(d1.jobs, jobId, w2.patch);
    assert Allowed(db, w1);
    assert Allowed(d1, w2);
    assert Allowed(Apply(d1, w2), w3);
    AllowedPair(d1, w2, w3);
    assert [w1, w2, w3][1..] == [w2, w3];
  }

  /**
   * An accepted review appends its review row and its audit entry, rewrites
   * the job's row with the decided status, its progress and the update
   * time, and leaves every other table as it was.
   */
  lemma ReviewRowsOutcome(db: Db, jobId: Uuid, next: JobStatus, comment: Option<string>, review: Stamp,
                          updatedAt: Timestamp, log: Stamp)
    ensures ApplyAll(db, ReviewWrites(jobId, next, comment, review, updatedAt, log)).jobs ==
      PatchRows(db.jobs, jobId, StatusPatch(next, ProgressForStatus(next), updatedAt))
    ensures ApplyAll(db, ReviewWrites(jobId, next, comment, review, updatedAt, log)).reviews ==
      db.reviews + [ReviewRecord(review.id, jobId, StatusValue(next), comment, review.at)]
    ensures ApplyAll(db, ReviewWrites(jobId, next, comment, review, updatedAt, log)).auditLogs ==
      db.auditLogs + [LogEntry(jobId, ReviewActionPrefix + StatusValue(next), ReviewDetailPrefix + StatusValue(next), log)]
    ensures ApplyAll(db, ReviewWrites(jobId, next, comment, review, updatedAt, log)).projects == db.projects
    ensures ApplyAll(db, ReviewWrites(jobId, next, comment, review, updatedAt, log)).artifacts == db.artifacts
    ensures ApplyAll(db, ReviewWrites(jobId, next, comment, review, updatedAt, log)).billingUsage == db.billingUsage
  {
    var decision := StatusValue(next);
    var w1 := InsertReview(ReviewRecord(review.id, jobId, decision, comment, review.at));
    var w2 := UpdateJob(jobId, StatusPatch(next, ProgressForStatus(next), updatedAt));
    var w3 := InsertAuditLog(LogEntry(jobId, ReviewActionPrefix + decision, ReviewDetailPrefix + decision, log));
    assert ReviewWrites(jobId, next, comment, review, updatedAt, log) == [w1, w2, w3];
    ApplyAllThree(db, w1, w2, w3);
  }

  /**
   * After an accepted review `get_job` answers the job at the decided
   * status with full progress and the new update time; every other job is
   * unchanged.
   */
  lemma ReviewJobOutcome(db: Db, jobId: Uuid, next: JobStatus, comment: Option<string>, review: Stamp,
                         updatedAt: Timestamp, log: Stamp)
    requires StatusesValid(db.jobs) && GetJob(db, jobId).Some? && (next == Approved || next == Rejected)
    ensures StatusesValid(ApplyAll(db, ReviewWrites(jobId, next, comment, review, updatedAt, log)).jobs)
    ensures GetJob(ApplyAll(db, ReviewWrites(jobId, next, comment, review, updatedAt, log)), jobId) ==
      Some(GetJob(db, jobId).value.(status := next, progressPercent := 100, updatedAt := updatedAt))
    ensures forall x :: x != jobId ==>
      GetJob(ApplyAll(db, ReviewWrites(jobId, next, comment, review, updatedAt, log)), x) == GetJob(db, x)
  {
    var p := StatusPatch(next, ProgressForStatus(next), updatedAt);
    var d := ApplyAll(db, ReviewWrites(jobId, next, comment, review, updatedAt, log));
    ReviewRowsOutcome(db, jobId, next, comment, review, updatedAt, log);
    assert d.jobs == Apply(db, UpdateJob(jobId, p)).jobs;
    PatchRowsKeepsShape(db.jobs, jobId, p);
    forall x ensures GetJob(d, x) == GetJob(Apply(db, UpdateJob(jobId, p)), x) {
    }
    forall x ensures GetJob(Apply(db, UpdateJob(jobId, p)), x) ==
      if x == jobId then Some(PatchJob(GetJob(db, x).value, p)) else GetJob(db, x)
    {
      GetJobAfterUpdate(db, jobId, p, x);
    }
  }

  // ----------------------------------------------------------- _run_render

  const HexDigits: string := "0123456789abcdef"
  const VideoFileSuffix: string := "_final_1080p.mp4"

  function Pow16(n: nat): (p: nat)
    ensures p >= 1
  {
    if n == 0 then 1 else 16 * Pow16(n - 1)
  }

  /** `n` as exactly `width` lower-case hex digits, most significant first (`'%0*x'`). */
  function HexText(n: nat, width: nat): (s: string)
    ensures |s| == width
    ensures forall i :: 0 <= i < width ==> s[i] in HexDigits
  {
    if width == 0 then [] else HexText(n / 16, width - 1) + [HexDigits[n % 16]]
  }

  /** The sixteen hex digits are distinct. */
  lemma HexDigitsDistinct(a: nat, b: nat)
    requires a < 16 && b < 16
    ensures HexDigits[a] == HexDigits[b] <==> a == b
  {
    if a != b {
      assert forall i, j :: 0 <= i < j < 16 ==> HexDigits[i] != HexDigits[j];
    }
  }

  /** Below `16^width`, the hex text determines the number. */
  lemma {:induction false} HexTextInjective(n: nat, m: nat, width: nat)
    requires n < Pow16(width) && m < Pow16(width)
    ensures HexText(n, width) == HexText(m, width) <==> n == m
  {
    if width > 0 && HexText(n, width) == HexText(m, width) {
      var hn, hm := HexText(n, width), HexText(m, width);
      assert hn[..width - 1] == HexText(n / 16, width - 1);
      assert hm[..width - 1] == HexText(m / 16, width - 1);
      HexTextInjective(n / 16, m / 16, width - 1);
      assert hn[width - 1] == HexDigits[n % 16] && hm[width - 1] == HexDigits[m % 16];
      HexDigitsDistinct(n % 16, m % 16);
    }
  }

  /**
   * `str(uuid)`: the 128-bit value as 32 hex digits in groups of
   * 8-4-4-4-12, joined by hyphens.
   */
  function UuidText(u: Uuid): (r: string)
    ensures |r| == 36
    ensures r[8] == '-' && r[13] == '-' && r[18] == '-' && r[23] == '-'
  {
    var h := HexText(u, 32);
    h[..8] + "-" + h[8..12] + "-" + h[12..16] + "-" + h[16..20] + "-" + h[20..]
  }

  /** Dropping the hyphens of `str(uuid)` gives back the 32 hex digits. */
  lemma UuidTextDigits(u: Uuid)
    ensures var r := UuidText(u);
      r[..8] + r[9..13] + r[14..18] + r[19..23] + r[24..] == HexText(u, 32)
  {
    var h := HexText(u, 32);
    var r := UuidText(u);
    assert r[..8] == h[..8] && r[9..13] == h[8..12] && r[14..18] == h[12..16];
    assert r[19..23] == h[16..20] && r[24..] == h[20..];
    assert h == h[..8] + h[8..12] + h[12..16] + h[16..20] + h[20..];
  }

  /** Two UUIDs have the same text exactly when they are the same UUID. */
  lemma UuidTextInjective(u: Uuid, v: Uuid)
    requires u < Pow16(32) && v < Pow16(32)
    ensures UuidText(u) == UuidText(v) <==> u == v
  {
    UuidTextDigits(u);
    UuidTextDigits(v);
    HexTextInjective(u, v, 32);
  }

  /** `str(ARTIFACTS_DIR / f"{job_id}_final_1080p.mp4")`. */
  function ArtifactUri(artifactsDir: string, jobId: Uuid): string {
    artifactsDir + "/" + UuidText(jobId) + VideoFileSuffix
  }

  /**
   * The video's path depends on the job alone: every render of one job
   * copies to the same file, and two jobs never share one.
   */
  lemma ArtifactUriIdentifiesJob(artifactsDir: string, u: Uuid, v: Uuid)
    requires u < Pow16(32) && v < Pow16(32)
    ensures ArtifactUri(artifactsDir, u) == ArtifactUri(artifactsDir, v) <==> u == v
  {
    var a, b := ArtifactUri(artifactsDir, u), ArtifactUri(artifactsDir, v);
    var k := |artifactsDir| + 1;
    if a == b {
      assert a[k..k + 36] == UuidText(u);
      assert b[k..k + 36] == UuidText(v);
    }
    UuidTextInjective(u, v);
  }

  /**
   * What the outside world does during one render attempt: whether the
   * worker script exits 0, whether it leaves out/final_1080p.mp4, whether
   * the copy into the artifacts directory succeeds, what `_probe_duration`
   * returns (None when it raises, for instance when ffprobe cannot be
   * started), and the text of the exception that ended the attempt when
   * one of the other steps raised. `artifactsDir` is not chosen by the
   * attempt: it is the service's artifacts directory, `data/artifacts`
   * under its installation directory.
   */
  datatype RenderEnv = RenderEnv(
    workerSucceeded: bool,
    outputExists: bool,
    copySucceeded: bool,
    artifactsDir: string,
    probe: Option<int>,
    errorText: string)

  /** The ids and times one render attempt draws, in the order it draws them. */
  datatype RenderStamps = RenderStamps(
    startLog: Stamp,
    running: Timestamp,
    artifact: Stamp,
    billing: Stamp,
    finished: Timestamp,
    endLog: Stamp)

  /** The video reached the artifacts directory and was registered. */
  predicate Stored(env: RenderEnv) {
    env.workerSucceeded && env.outputExists && env.copySucceeded
  }

  /** Nothing raised: the job goes to review. */
  predicate Rendered(env: RenderEnv) {
    Stored(env) && env.probe.Some?
  }

  /** A non-zero duration was measured: it is recorded and billed. */
  predicate Billed(env: RenderEnv) {
    Rendered(env) && env.probe.value != 0
  }

  function RenderResult(env: RenderEnv): (s: JobStatus)
    ensures s == NeedsReview || s == Failed
    ensures s == NeedsReview <==> Rendered(env)
  {
    if Rendered(env) then NeedsReview else Failed
  }

  /** The detail of the `render.failed` entry: the fixed prefix, then the exception's text. */
  function FailureDetail(env: RenderEnv): (r: string)
    ensures |r| >= |RenderFailedPrefix| && r[..|RenderFailedPrefix|] == RenderFailedPrefix
    ensures env.workerSucceeded && !env.outputExists ==> r[|RenderFailedPrefix|..] == OutputMissingText
    ensures !env.workerSucceeded || env.outputExists ==> r[|RenderFailedPrefix|..] == env.errorText
  {
    RenderFailedPrefix + if env.workerSucceeded && !env.outputExists then OutputMissingText else env.errorText
  }

  /** The `video_mp4` artifact registered for the copied video. */
  function VideoArtifact(jobId: Uuid, env: RenderEnv, s: Stamp): ArtifactRecord {
    ArtifactRecord(s.id, jobId, "video_mp4", ArtifactUri(env.artifactsDir, jobId), map[], s.at)
  }

  function RenderEndEntry(jobId: Uuid, env: RenderEnv, t: RenderStamps): AuditLogRecord {
    if Rendered(env) then LogEntry(jobId, RenderCompleteAction, RenderCompleteDetail, t.endLog)
    else LogEntry(jobId, RenderFailedAction, FailureDetail(env), t.endLog)
  }

  function RenderStart(jobId: Uuid, t: RenderStamps): seq<Write> {
    [ InsertAuditLog(LogEntry(jobId, RenderStartAction, RenderStartDetail, t.startLog)),
      UpdateJob(jobId, StatusPatch(RunningRender, ProgressForStatus(RunningRender), t.running)) ]
  }

  function RenderArtifact(jobId: Uuid, env: RenderEnv, t: RenderStamps): seq<Write> {
    if Stored(env) then [InsertArtifact(VideoArtifact(jobId, env, t.artifact))] else []
  }

  function RenderBilling(jobId: Uuid, env: RenderEnv, t: RenderStamps): seq<Write> {
    if Billed(env) then
      [ UpdateJob(jobId, OutputPatch(env.probe.value)),
        InsertBillingUsage(BillingUsageRecord(t.billing.id, jobId, env.probe.value, t.billing.at)) ]
    else []
  }

  function RenderEnd(jobId: Uuid, env: RenderEnv, t: RenderStamps): seq<Write> {
    [ UpdateJob(jobId, StatusPatch(RenderResult(env), ProgressForStatus(RenderResult(env)), t.finished)),
      InsertAuditLog(RenderEndEntry(jobId, env, t)) ]
  }

  /** What one render attempt of an existing job commits, in order. */
  function RenderWrites(jobId: Uuid, env: RenderEnv, t: RenderStamps): seq<Write> {
    RenderStart(jobId, t) + RenderArtifact(jobId, env, t) + RenderBilling(jobId, env, t) + RenderEnd(jobId, env, t)
  }

  /** The ids a render attempt draws are new, and its two audit entries are distinct. */
  predicate RenderFresh(db: Db, t: RenderStamps) {
    && t.startLog.id !in Keys(db.auditLogs, AuditLogId)
    && t.endLog.id !in Keys(db.auditLogs, AuditLogId)
    && t.startLog.id != t.endLog.id
    && t.artifact.id !in Keys(db.artifacts, ArtifactId)
    && t.billing.id !in Keys(db.billingUsage, BillingUsageId)
  }

  /** `_run_render` up to the worker: the `render.start` entry, then RUNNING_RENDER. */
  method RenderStartPhase(store: Store, jobId: Uuid, t: RenderStamps)
    requires store.Valid() && GetJob(store.db, jobId).Some? && RenderFresh(store.db, t)
    modifies store
    ensures store.Valid() && GetJob(store.db, jobId).Some?
    ensures store.db == ApplyAll(old(store.db), RenderStart(jobId, t))
    ensures store.journal == old(store.journal) + RenderStart(jobId, t)
    ensures AllAllowed(old(store.db), RenderStart(jobId, t))
    ensures t.endLog.id !in Keys(store.db.auditLogs, AuditLogId)
    ensures store.db.artifacts == old(store.db).artifacts && store.db.billingUsage == old(store.db).billingUsage
  {
    ghost var db0, j0 := store.db, store.journal;
    var w1 := InsertAuditLog(LogEntry(jobId, RenderStartAction, RenderStartDetail, t.startLog));
    var w2 := UpdateJob(jobId, StatusPatch(RunningRender, ProgressForStatus(RunningRender), t.running));
    assert Allowed(db0, w1) && Allowed(Apply(db0, w1), w2);
    AllowedPair(db0, w1, w2);
    Log(store, jobId, RenderStartAction, RenderStartDetail, t.startLog);
    var updated := store.UpdateJobStatus(jobId, RunningRender, ProgressForStatus(RunningRender), t.running);
    ApplyAllTwo(db0, w1, w2);
    KeysAppend(db0.auditLogs, AuditLogId, w1.log);
    assert [w1, w2] == RenderStart(jobId, t);
    AppendTwo(j0, w1, w2);
  }

  /**
   * The `try` block of `_run_render` up to the final status: register the
   * video when the worker produced it and the copy succeeded, then record
   * and bill a non-zero measured duration. Reports whether nothing raised.
   */
  method RenderOutputPhase(store: Store, jobId: Uuid, env: RenderEnv, t: RenderStamps) returns (rendered: bool)
    requires store.Valid() && GetJob(store.db, jobId).Some?
    requires t.artifact.id !in Keys(store.db.artifacts, ArtifactId)
    requires t.billing.id !in Keys(store.db.billingUsage, BillingUsageId)
    modifies store
    ensures store.Valid() && GetJob(store.db, jobId).Some?
    ensures rendered == Rendered(env)
    ensures store.db == ApplyAll(old(store.db), RenderArtifact(jobId, env, t) + RenderBilling(jobId, env, t))
    ensures store.journal == old(store.journal) + (RenderArtifact(jobId, env, t) + RenderBilling(jobId, env, t))
    ensures AllAllowed(old(store.db), RenderArtifact(jobId, env, t) + RenderBilling(jobId, env, t))
    ensures store.db.auditLogs == old(store.db).auditLogs
  {
    ghost var db0, j0 := store.db, store.journal;
    var stored := StoreVideo(store, jobId, env, t);
    rendered := false;
    if stored {
      match env.probe {
        case Some(durationSeconds) =>
          if durationSeconds != 0 {
            RecordDuration(store, jobId, env, t);
          } else {
            assert ApplyAll(store.db, RenderBilling(jobId, env, t)) == store.db;
          }
          rendered := true;
        case None =>
          assert ApplyAll(store.db, RenderBilling(jobId, env, t)) == store.db;
      }
    } else {
      assert ApplyAll(store.db, RenderBilling(jobId, env, t)) == store.db;
    }
    ghost var a, b := RenderArtifact(jobId, env, t), RenderBilling(jobId, env, t);
    ApplyAllConcat(db0, a, b);
    AllAllowedConcat(db0, a, b);
    AppendAssoc(j0, a, b);
  }

  /** Copying the worker's video into the artifacts directory and registering it. */
  method StoreVideo(store: Store, jobId: Uuid, env: RenderEnv, t: RenderStamps) returns (stored: bool)
    requires store.Valid() && GetJob(store.db, jobId).Some?
    requires t.artifact.id !in Keys(store.db.artifacts, ArtifactId)
    modifies store
    ensures store.Valid() && store.db.jobs == old(store.db).jobs
    ensures stored == Stored(env)
    ensures store.db == ApplyAll(old(store.db), RenderArtifact(jobId, env, t))
    ensures store.journal == old(store.journal) + RenderArtifact(jobId, env, t)
    ensures AllAllowed(old(store.db), RenderArtifact(jobId, env, t))
    ensures store.db.auditLogs == old(store.db).auditLogs && store.db.billingUsage == old(store.db).billingUsage
  {
    ghost var db0 := store.db;
    stored := env.workerSucceeded && env.outputExists && env.copySucceeded;
    if stored {
      var w := InsertArtifact(VideoArtifact(jobId, env, t.artifact));
      assert Allowed(db0, w);
      var ok := store.CreateArtifact(w.artifact);
      ApplyAllOne(db0, w);
      assert [w][1..] == [];
    }
  }

  /** Recording a measured non-zero duration on the job and billing it. */
  method RecordDuration(store: Store, jobId: Uuid, env: RenderEnv, t: RenderStamps)
    requires store.Valid() && GetJob(store.db, jobId).Some? && Billed(env)
    requires t.billing.id !in Keys(store.db.billingUsage, BillingUsageId)
    modifies store
    ensures store.Valid() && GetJob(store.db, jobId).Some?
    ensures store.db == ApplyAll(old(store.db), RenderBilling(jobId, env, t))
    ensures store.journal == old(store.journal) + RenderBilling(jobId, env, t)
    ensures AllAllowed(old(store.db), RenderBilling(jobId, env, t))
    ensures store.db.auditLogs == old(store.db).auditLogs
  {
    ghost var db0, j0 := store.db, store.journal;
    var durationSeconds := env.probe.value;
    var w1 := UpdateJob(jobId, OutputPatch(durationSeconds));
    var w2 := InsertBillingUsage(BillingUsageRecord(t.billing.id, jobId, durationSeconds, t.billing.at));
    PatchRowsKeepsShape(db0.jobs, jobId, w1.patch);
    assert Allowed(db0, w1) && Allowed(Apply(db0, w1), w2);
    AllowedPair(db0, w1, w2);
    ApplyAllTwo(db0, w1, w2);
    store.UpdateJobOutput(jobId, durationSeconds);
    var ok := store.CreateBillingUsage(w2.usage);
    AppendTwo(j0, w1, w2);
  }

  /** The end of `_run_render`: NEEDS_REVIEW and `render.complete`, or FAILED and `render.failed`. */
  method RenderEndPhase(store: Store, jobId: Uuid, env: RenderEnv, t: RenderStamps, rendered: bool)
    requires store.Valid() && GetJob(store.db, jobId).Some? && rendered == Rendered(env)
    requires t.endLog.id !in Keys(store.db.auditLogs, AuditLogId)
    modifies store
    ensures store.Valid()
    ensures store.db == ApplyAll(old(store.db), RenderEnd(jobId, env, t))
    ensures store.journal == old(store.journal) + RenderEnd(jobId, env, t)
    ensures AllAllowed(old(store.db), RenderEnd(jobId, env, t))
  {
    ghost var db0, j0 := store.db, store.journal;
    var status := if rendered then NeedsReview else Failed;
    var w1 := UpdateJob(jobId, StatusPatch(status, ProgressForStatus(status), t.finished));
    var w2 := InsertAuditLog(RenderEndEntry(jobId, env, t));
    assert [w1, w2] == RenderEnd(jobId, env, t);
    PatchRowsKeepsShape(db0.jobs, jobId, w1.patch);
    assert Allowed(db0, w1) && Allowed(Apply(db0, w1), w2);
    AllowedPair(db0, w1, w2);
    ApplyAllTwo(db0, w1, w2);
    var updated := store.UpdateJobStatus(jobId, status, ProgressForStatus(status), t.finished);
    ghost var j1 := store.journal;
    if rendered {
      Log(store, jobId, RenderCompleteAction, RenderCompleteDetail, t.endLog);
      assert store.journal == j1 + [w2];
    } else {
      Log(store, jobId, RenderFailedAction, FailureDetail(env), t.endLog);
      assert store.journal == j1 + [w2];
    }
    AppendTwo(j0, w1, w2);
  }

  /**
   * `_run_render`: nothing for an unknown job; otherwise exactly the
   * statements of `RenderWrites`. The job's current status is not checked.
   */
  method RunRender(store: Store, jobId: Uuid, env: RenderEnv, t: RenderStamps)
    requires store.Valid() && RenderFresh(store.db, t)
    modifies store
    ensures store.Valid()
    ensures GetJob(old(store.db), jobId).None? ==> store.db == old(store.db) && store.journal == old(store.journal)
    ensures GetJob(old(store.db), jobId).Some? ==>
      && store.db == ApplyAll(old(store.db), RenderWrites(jobId, env, t))
      && store.journal == old(store.journal) + RenderWrites(jobId, env, t)
    ensures old(Consistent(store.db)) ==> Consistent(store.db)
  {
    var job := GetJob(store.db, jobId);
    if job.None? {
      return;
    }
    ghost var db0, j0 := store.db, store.journal;
    ghost var a, b, c := RenderStart(jobId, t), RenderArtifact(jobId, env, t) + RenderBilling(jobId, env, t),
      RenderEnd(jobId, env, t);
    RenderStartPhase(store, jobId, t);
    var rendered := RenderOutputPhase(store, jobId, env, t);
    RenderEndPhase(store, jobId, env, t, rendered);
    ThreeRuns(db0, a, b, c);
    AppendAssoc(a, RenderArtifact(jobId, env, t), RenderBilling(jobId, env, t));
    assert RenderWrites(jobId, env, t) == a + b + c;
    AppendAssoc(j0 + a, b, c);
    AppendAssoc(j0, a, b + c);
    AppendAssoc(a, b, c);
    assert store.journal == j0 + (a + b + c);
    if Consistent(db0) {
      ApplyAllKeepsConsistent(db0, a + b + c);
    }
  }

  /** A render attempt inserts no job and updates no job but its own. */
  lemma RenderWritesTouchOneJob(jobId: Uuid, env: RenderEnv, t: RenderStamps)
    ensures NoJobInserts(RenderWrites(jobId, env, t))
    ensures forall i :: 0 <= i < |RenderWrites(jobId, env, t)| && RenderWrites(jobId, env, t)[i].UpdateJob? ==>
      RenderWrites(jobId, env, t)[i].jobId == jobId
  {
    var ws := RenderWrites(jobId, env, t);
    var a, b, c, d := RenderStart(jobId, t), RenderArtifact(jobId, env, t), RenderBilling(jobId, env, t),
      RenderEnd(jobId, env, t);
    forall i | 0 <= i < |ws| ensures !ws[i].InsertJob? && (ws[i].UpdateJob? ==> ws[i].jobId == jobId) {
      if i < |a| { assert ws[i] == a[i]; }
      else if i < |a| + |b| { assert ws[i] == b[i - |a|]; }
      else if i < |a| + |b| + |c| { assert ws[i] == c[i - |a| - |b|]; }
      else { assert ws[i] == d[i - |a| - |b| - |c|]; }
    }
  }

  /**
   * After a render attempt `get_job` answers the job at NEEDS_REVIEW when
   * nothing raised and at FAILED otherwise, with the progress of that status,
   * updated at the end of the attempt, and with the measured duration when
   * one was billed.
   */
  lemma RenderJobOutcome(db: Db, jobId: Uuid, env: RenderEnv, t: RenderStamps)
    requires StatusesValid(db.jobs) && GetJob(db, jobId).Some?
    ensures StatusesValid(ApplyAll(db, RenderWrites(jobId, env, t)).jobs)
    ensures GetJob(ApplyAll(db, RenderWrites(jobId, env, t)), jobId) ==
      Some(GetJob(db, jobId).value.(
        status := RenderResult(env),
        progressPercent := ProgressForStatus(RenderResult(env)),
        updatedAt := t.finished,
        outputDurationSeconds := if Billed(env) then Some(env.probe.value) else GetJob(db, jobId).value.outputDurationSeconds))
  {
    RenderWritesTouchOneJob(jobId, env, t);
    GetJobApplyAll(db, RenderWrites(jobId, env, t), jobId);
    RenderJobView(GetJob(db, jobId).value, jobId, env, t);
  }

  /** The render's statements, followed on one job: the two status updates and the duration when billed. */
  lemma RenderJobView(job: JobRecord, jobId: Uuid, env: RenderEnv, t: RenderStamps)
    ensures JobView(Some(job), jobId, RenderWrites(jobId, env, t)) ==
      Some(job.(
        status := RenderResult(env),
        progressPercent := ProgressForStatus(RenderResult(env)),
        updatedAt := t.finished,
        outputDurationSeconds := if Billed(env) then Some(env.probe.value) else job.outputDurationSeconds))
  {
    var a, b, c, d := RenderStart(jobId, t), RenderArtifact(jobId, env, t), RenderBilling(jobId, env, t),
      RenderEnd(jobId, env, t);
    var job := Some(job);
    JobViewConcat(job, jobId, a + b + c, d);
    JobViewConcat(job, jobId, a + b, c);
    JobViewConcat(job, jobId, a, b);
    JobViewTwo(job, jobId, a[0], a[1]);
    assert a == [a[0], a[1]];
    var j1 := JobView(job, jobId, a);
    assert forall i :: 0 <= i < |b| ==> !b[i].UpdateJob?;
    JobViewUntouched(j1, jobId, b);
    if Billed(env) {
      JobViewTwo(j1, jobId, c[0], c[1]);
      assert c == [c[0], c[1]];
    }
    var j3 := JobView(j1, jobId, c);
    JobViewTwo(j3, jobId, d[0], d[1]);
    assert d == [d[0], d[1]];
  }

  /** A render attempt leaves every other job as `get_job` answered it before. */
  lemma RenderLeavesOtherJobs(db: Db, jobId: Uuid, env: RenderEnv, t: RenderStamps)
    requires StatusesValid(db.jobs)
    ensures StatusesValid(ApplyAll(db, RenderWrites(jobId, env, t)).jobs)
    ensures forall x :: x != jobId ==> GetJob(ApplyAll(db, RenderWrites(jobId, env, t)), x) == GetJob(db, x)
  {
    var ws := RenderWrites(jobId, env, t);
    RenderWritesTouchOneJob(jobId, env, t);
    GetJobApplyAll(db, ws, jobId);
    forall x | x != jobId ensures GetJob(ApplyAll(db, ws), x) == GetJob(db, x) {
      GetJobApplyAll(db, ws, x);
      JobViewUntouched(GetJob(db, x), x, ws);
    }
  }

  /**
   * A render attempt adds its `render.start` entry and one closing entry to
   * the audit log, the video artifact when it was stored, and a billing row
   * when a duration was billed; projects and reviews are untouched.
   */
  lemma RenderRowsOutcome(db: Db, jobId: Uuid, env: RenderEnv, t: RenderStamps)
    ensures ApplyAll(db, RenderWrites(jobId, env, t)).auditLogs ==
      db.auditLogs + [LogEntry(jobId, RenderStartAction, RenderStartDetail, t.startLog), RenderEndEntry(jobId, env, t)]
    ensures ApplyAll(db, RenderWrites(jobId, env, t)).artifacts ==
      db.artifacts + if Stored(env) then [VideoArtifact(jobId, env, t.artifact)] else []
    ensures ApplyAll(db, RenderWrites(jobId, env, t)).billingUsage ==
      db.billingUsage + if Billed(env) then [BillingUsageRecord(t.billing.id, jobId, env.probe.value, t.billing.at)] else []
    ensures ApplyAll(db, RenderWrites(jobId, env, t)).projects == db.projects
    ensures ApplyAll(db, RenderWrites(jobId, env, t)).reviews == db.reviews
  {
    var a, b, c, d := RenderStart(jobId, t), RenderArtifact(jobId, env, t), RenderBilling(jobId, env, t),
      RenderEnd(jobId, env, t);
    ApplyAllConcat(db, a + b + c, d);
    ApplyAllConcat(db, a + b, c);
    ApplyAllConcat(db, a, b);
    ApplyAllTwo(db, a[0], a[1]);
    assert a == [a[0], a[1]];
    var d1 := ApplyAll(db, a);
    if Stored(env) {
      ApplyAllOne(d1, b[0]);
      assert b == [b[0]];
    }
    var d2 := ApplyAll(d1, b);
    if Billed(env) {
      ApplyAllTwo(d2, c[0], c[1]);
      assert c == [c[0], c[1]];
    }
    var d3 := ApplyAll(d2, c);
    ApplyAllTwo(d3, d[0], d[1]);
    assert d == [d[0], d[1]];
  }

  /**
   * `_run_render` never consults the transition table: an APPROVED job that
   * is rendered again goes back to NEEDS_REVIEW, although APPROVED is
   * terminal and may not move to RUNNING_RENDER.
   */
  lemma RenderSkipsTransitionTable(db: Db, jobId: Uuid, env: RenderEnv, t: RenderStamps)
    requires StatusesValid(db.jobs) && GetJob(db, jobId).Some? && GetJob(db, jobId).value.status == Approved
    requires Rendered(env)
    ensures !CanTransition(GetJob(db, jobId).value.status, RunningRender)
    ensures StatusesValid(ApplyAll(db, RenderWrites(jobId, env, t)).jobs)
    ensures GetJob(ApplyAll(db, RenderWrites(jobId, env, t)), jobId).Some?
    ensures GetJob(ApplyAll(db, RenderWrites(jobId, env, t)), jobId).value.status == NeedsReview
  {
    RenderJobOutcome(db, jobId, env, t);
  }

  /**
   * Nothing is rolled back when a later step raises: if the probe fails
   * after the video was registered, the job ends FAILED and the video stays
   * among its artifacts, with no billing row.
   */
  lemma ProbeFailureKeepsArtifact(db: Db, jobId: Uuid, env: RenderEnv, t: RenderStamps)
    requires StatusesValid(db.jobs) && GetJob(db, jobId).Some?
    requires Stored(env) && env.probe.None?
    ensures StatusesValid(ApplyAll(db, RenderWrites(jobId, env, t)).jobs)
    ensures GetJob(ApplyAll(db, RenderWrites(jobId, env, t)), jobId).Some?
    ensures GetJob(ApplyAll(db, RenderWrites(jobId, env, t)), jobId).value.status == Failed
    ensures VideoArtifact(jobId, env, t.artifact) in ListArtifacts(ApplyAll(db, RenderWrites(jobId, env, t)), jobId)
    ensures ListBillingUsage(ApplyAll(db, RenderWrites(jobId, env, t)), jobId) == ListBillingUsage(db, jobId)
  {
    RenderJobOutcome(db, jobId, env, t);
    RenderRowsOutcome(db, jobId, env, t);
    assert ApplyAll(db, RenderWrites(jobId, env, t)).billingUsage == db.billingUsage;
  }

  // ----------------------------------------------------- download_artifact

  /** `next(...)` over `list_artifacts(job_id)` finds the artifact with that id exactly when it is this job's. */
  lemma FindInArtifactListing(db: Db, jobId: Uuid, artifactId: Uuid)
    requires WellFormed(db)
    ensures Find(ListArtifacts(db, jobId), ArtifactId, artifactId) ==
      if artifactId in Keys(db.artifacts, ArtifactId) && Find(db.artifacts, ArtifactId, artifactId).value.jobId == jobId
      then Find(db.artifacts, ArtifactId, artifactId) else None
  {
    var listing := ListArtifacts(db, jobId);
    forall b | b in db.artifacts && b.jobId == jobId ensures b.id in Keys(listing, ArtifactId) {
      var i :| 0 <= i < |listing| && listing[i] == b;
    }
    match Find(listing, ArtifactId, artifactId)
    case Some(a) => FindUnique(db.artifacts, ArtifactId, a);
    case None =>
  }

  /**
   * The lookup of `download_artifact`: 404 "job not found", 404 "artifact
   * not found" unless the artifact with that id belongs to this job, 404
   * "file not found" unless its file exists, otherwise the artifact to send.
   */
  function DownloadArtifact(db: Db, jobId: Uuid, artifactId: Uuid, files: set<string>): (r: Result<ArtifactRecord, ApiError>)
    requires WellFormed(db)
    ensures GetJob(db, jobId).None? ==> r == Failure(NotFound("job not found"))
    ensures r.Success? <==>
      && GetJob(db, jobId).Some?
      && artifactId in Keys(db.artifacts, ArtifactId)
      && Find(db.artifacts, ArtifactId, artifactId).value.jobId == jobId
      && Find(db.artifacts, ArtifactId, artifactId).value.storageUri in files
    ensures r.Success? ==> r.value in db.artifacts && r.value.id == artifactId && r.value.jobId == jobId
    ensures GetJob(db, jobId).Some? && artifactId !in Keys(db.artifacts, ArtifactId) ==>
      r == Failure(NotFound("artifact not found"))
    ensures
      && GetJob(db, jobId).Some?
      && artifactId in Keys(db.artifacts, ArtifactId)
      && Find(db.artifacts, ArtifactId, artifactId).value.jobId != jobId
      ==> r == Failure(NotFound("artifact not found"))
    ensures
      && GetJob(db, jobId).Some?
      && artifactId in Keys(db.artifacts, ArtifactId)
      && Find(db.artifacts, ArtifactId, artifactId).value.jobId == jobId
      && Find(db.artifacts, ArtifactId, artifactId).value.storageUri !in files
      ==> r == Failure(NotFound("file not found"))
    ensures r.Failure? ==> r.error.NotFound?
  {
    if GetJob(db, jobId).None? then Failure(NotFound("job not found"))
    else
      FindInArtifactListing(db, jobId, artifactId);
      match Find(ListArtifacts(db, jobId), ArtifactId, artifactId)
      case None => Failure(NotFound("artifact not found"))
      case Some(artifact) =>
        if artifact.storageUri !in files then Failure(NotFound("file not found"))
        else Success(artifact)
  }
}
