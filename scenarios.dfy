/**
 * Whole request sequences against a store opened on an empty database,
 * following the flow of api/app/main.py: create a job, render it, review it.
 */
module Scenarios {
  import opened Wrappers
  import opened JobStates
  import opened Rows
  import opened Records
  import opened Storage
  import opened Journal
  import opened App

  /**
   * The default project is created by the first `POST /jobs` and reused by
   * the next one.
   */
  method DefaultProjectIsReused(s1: Stamp, s2: Stamp) returns (first: JobRecord, second: JobRecord)
    requires s2.id != s1.id
    ensures first.projectId == second.projectId == s1.id
    ensures first.status == second.status == Queued
  {
    var store := new Store.Open(EmptyDb);
    var payload := JobCreate("title", "purpose", "tone", 60);
    var r1 := CreateJobSimple(store, payload, s1, s1.id, s1.at, s1);
    var project := ProjectRecord(s1.id, DefaultProjectTitle, "", s1.at);
    var d1 := Apply(EmptyDb, InsertProject(project));
    ApplyAllConcat(EmptyDb, [InsertProject(project)], CreateJobWrites(r1.value, s1));
    ApplyAllOne(EmptyDb, InsertProject(project));
    ApplyAllTwo(d1, InsertJob(r1.value), InsertAuditLog(LogEntry(s1.id, JobCreateAction, JobCreateDetail, s1)));
    assert store.db.projects == [project];
    assert store.db.jobs == [JobToRow(r1.value)];
    assert store.db.auditLogs == [LogEntry(s1.id, JobCreateAction, JobCreateDetail, s1)];
    KeysAppend([], JobRowId, JobToRow(r1.value));
    KeysAppend([], AuditLogId, LogEntry(s1.id, JobCreateAction, JobCreateDetail, s1));
    NewestFirstSingle(project, ProjectCreatedAt);
    var r2 := CreateJobSimple(store, payload, s2, s2.id, s2.at, s2);
    first, second := r1.value, r2.value;
  }

  lemma LowerApproved()
    ensures Lower("APPROVED") == "approved"
  {
    var r := Lower("APPROVED");
    assert r[0] == 'a' && r[1] == 'p' && r[2] == 'p' && r[3] == 'r';
    assert r[4] == 'o' && r[5] == 'v' && r[6] == 'e' && r[7] == 'd';
  }

  /** The database after the first `POST /jobs` on an empty store. */
  lemma FirstJobState(job: JobRecord, project: ProjectRecord, log: Stamp)
    ensures ApplyAll(EmptyDb, [InsertProject(project)] + CreateJobWrites(job, log)) ==
      Db([project], [JobToRow(job)], [], [], [LogEntry(job.id, JobCreateAction, JobCreateDetail, log)], [])
  {
    var d1 := Apply(EmptyDb, InsertProject(project));
    ApplyAllConcat(EmptyDb, [InsertProject(project)], CreateJobWrites(job, log));
    ApplyAllOne(EmptyDb, InsertProject(project));
    ApplyAllTwo(d1, InsertJob(job), InsertAuditLog(LogEntry(job.id, JobCreateAction, JobCreateDetail, log)));
  }

  /** A new store holding one job, created by `POST /jobs`. */
  method StoreWithOneJob() returns (store: Store, jobId: Uuid)
    ensures fresh(store) && store.Valid()
    ensures GetJob(store.db, jobId).Some? && GetJob(store.db, jobId).value.outputDurationSeconds == None
    ensures RenderFresh(store.db, RenderStamps(Stamp(4, 1), 1, Stamp(5, 2), Stamp(6, 2), 3, Stamp(7, 3)))
    ensures store.db.reviews == [] && Keys(store.db.auditLogs, AuditLogId) == {3}
  {
    store := new Store.Open(EmptyDb);
    var created := CreateJobSimple(store, JobCreate("title", "purpose", "tone", 60), Stamp(1, 0), 2, 0, Stamp(3, 0));
    jobId := created.value.id;
    var e1 := LogEntry(jobId, JobCreateAction, JobCreateDetail, Stamp(3, 0));
    FirstJobState(created.value, ProjectRecord(1, DefaultProjectTitle, "", 0), Stamp(3, 0));
    KeysAppend([], AuditLogId, e1);
    GetJobAfterInsert(Apply(EmptyDb, InsertProject(ProjectRecord(1, DefaultProjectTitle, "", 0))), created.value, jobId);
  }

  /** The store of `StoreWithOneJob` after its job rendered to a ten-second video. */
  method StoreWithRenderedJob() returns (store: Store, jobId: Uuid)
    ensures fresh(store) && store.Valid()
    ensures GetJob(store.db, jobId).Some? && GetJob(store.db, jobId).value.status == NeedsReview
    ensures GetJob(store.db, jobId).value.outputDurationSeconds == Some(10)
    ensures store.db.reviews == [] && Keys(store.db.auditLogs, AuditLogId) == {3, 4, 7}
  {
    store, jobId := StoreWithOneJob();
    var env := RenderEnv(true, true, true, "/srv/monosoec-yuu/data/artifacts", Some(10), "");
    var t := RenderStamps(Stamp(4, 1), 1, Stamp(5, 2), Stamp(6, 2), 3, Stamp(7, 3));
    ghost var d2 := store.db;
    RunRender(store, jobId, env, t);
    RenderJobOutcome(d2, jobId, env, t);
    RenderRowsOutcome(d2, jobId, env, t);
    var e2, e3 := LogEntry(jobId, RenderStartAction, RenderStartDetail, t.startLog), RenderEndEntry(jobId, env, t);
    KeysAppend(d2.auditLogs, AuditLogId, e2);
    KeysAppend(d2.auditLogs + [e2], AuditLogId, e3);
    AppendTwo(d2.auditLogs, e2, e3);
  }

  /**
   * The main flow: a job is created, rendered to a ten-second video and
   * approved. It ends APPROVED at full progress with its measured duration.
   */
  method RenderThenApprove() returns (job: JobRecord)
    ensures job.status == Approved && job.progressPercent == 100
    ensures job.outputDurationSeconds == Some(10)
  {
    var store, jobId := StoreWithRenderedJob();
    LowerApproved();
    var reviewed := ReviewJob(store, jobId, ReviewCreate("APPROVED", None), Stamp(8, 4), 4, Stamp(9, 4));
    job := reviewed.value;
  }
}
