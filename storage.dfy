/**
 * `SqliteStore` of api/app/storage/sqlite.py: six tables keyed by id, their
 * lookups and newest-first listings, the inserts, and the two in-place job
 * updates. The database behind the connection is the value `Db`; the `Store`
 * class holds it and changes it one committed statement at a time.
 */
module Storage {
  import opened Wrappers
  import opened JobStates
  import opened Rows
  import opened Records

  /** The six tables, each in insertion order. */
  datatype Db = Db(
    projects: seq<ProjectRecord>,
    jobs: seq<JobRow>,
    artifacts: seq<ArtifactRecord>,
    reviews: seq<ReviewRecord>,
    auditLogs: seq<AuditLogRecord>,
    billingUsage: seq<BillingUsageRecord>)

  const EmptyDb := Db([], [], [], [], [], [])

  /** The schema's PRIMARY KEY constraints, and every stored status is one of the enum's values. */
  predicate WellFormed(db: Db) {
    && UniqueKeys(db.projects, ProjectId)
    && UniqueKeys(db.jobs, JobRowId)
    && UniqueKeys(db.artifacts, ArtifactId)
    && UniqueKeys(db.reviews, ReviewId)
    && UniqueKeys(db.auditLogs, AuditLogId)
    && UniqueKeys(db.billingUsage, BillingUsageId)
    && StatusesValid(db.jobs)
  }

  // ---------------------------------------------------------------- queries

  /** `get_project`: the project with that id, or None; never a default record. */
  function GetProject(db: Db, id: Uuid): (r: Option<ProjectRecord>)
    ensures r.Some? <==> id in Keys(db.projects, ProjectId)
    ensures r.Some? ==> r.value in db.projects && r.value.id == id
  {
    Find(db.projects, ProjectId, id)
  }

  /** `list_projects`: every project, newest first. */
  function ListProjects(db: Db): (r: seq<ProjectRecord>)
    ensures NewestFirstOrder(r, ProjectCreatedAt)
    ensures multiset(r) == multiset(db.projects)
  {
    NewestFirst(db.projects, ProjectCreatedAt)
  }

  /** `get_job`: the job with that id read back through `_row_to_job`, or None. */
  function GetJob(db: Db, id: Uuid): (r: Option<JobRecord>)
    requires StatusesValid(db.jobs)
    ensures r.Some? <==> id in Keys(db.jobs, JobRowId)
    ensures r.Some? ==> r.value.id == id && JobToRow(r.value) in db.jobs
  {
    match Find(db.jobs, JobRowId, id)
    case None => None
    case Some(row) => RowRoundTrip(row); Some(RowToJob(row))
  }

  /** `list_jobs`: the jobs of one project, newest first. */
  function ListJobs(db: Db, projectId: Uuid): (r: seq<JobRecord>)
    requires StatusesValid(db.jobs)
    ensures NewestFirstOrder(r, JobCreatedAt)
    ensures forall j :: j in r <==> JobToRow(j) in db.jobs && j.projectId == projectId
    ensures forall j :: multiset(r)[j] == if j.projectId == projectId then multiset(db.jobs)[JobToRow(j)] else 0
  {
    var rows := NewestFirst(Where(db.jobs, JobRowProjectId, projectId), JobRowCreatedAt);
    OwnedNewestFirst(db.jobs, JobRowProjectId, JobRowCreatedAt, projectId);
    RowsToJobsCount(rows);
    RowsToJobs(rows)
  }

  /** `list_all_jobs`: every job, newest first. */
  function ListAllJobs(db: Db): (r: seq<JobRecord>)
    requires StatusesValid(db.jobs)
    ensures NewestFirstOrder(r, JobCreatedAt)
    ensures forall j :: j in r <==> JobToRow(j) in db.jobs
    ensures forall j :: multiset(r)[j] == multiset(db.jobs)[JobToRow(j)]
  {
    var rows := NewestFirst(db.jobs, JobRowCreatedAt);
    assert forall x :: x in rows <==> x in db.jobs by {
      forall x ensures x in rows <==> x in db.jobs {
        assert x in rows <==> x in multiset(rows);
      }
    }
    RowsToJobsCount(rows);
    RowsToJobs(rows)
  }

  /** `list_artifacts`: the artifacts of one job, newest first. */
  function ListArtifacts(db: Db, jobId: Uuid): (r: seq<ArtifactRecord>)
    ensures NewestFirstOrder(r, ArtifactCreatedAt)
    ensures forall a :: a in r <==> a in db.artifacts && a.jobId == jobId
    ensures forall a :: multiset(r)[a] == if a.jobId == jobId then multiset(db.artifacts)[a] else 0
  {
    OwnedNewestFirst(db.artifacts, ArtifactJobId, ArtifactCreatedAt, jobId);
    NewestFirst(Where(db.artifacts, ArtifactJobId, jobId), ArtifactCreatedAt)
  }

  /** `list_reviews`: the reviews of one job, newest first. */
  function ListReviews(db: Db, jobId: Uuid): (r: seq<ReviewRecord>)
    ensures NewestFirstOrder(r, ReviewCreatedAt)
    ensures forall v :: v in r <==> v in db.reviews && v.jobId == jobId
    ensures forall v :: multiset(r)[v] == if v.jobId == jobId then multiset(db.reviews)[v] else 0
  {
    OwnedNewestFirst(db.reviews, ReviewJobId, ReviewCreatedAt, jobId);
    NewestFirst(Where(db.reviews, ReviewJobId, jobId), ReviewCreatedAt)
  }

  /** `list_audit_logs`: the audit entries of one job, newest first. */
  function ListAuditLogs(db: Db, jobId: Uuid): (r: seq<AuditLogRecord>)
    ensures NewestFirstOrder(r, AuditLogCreatedAt)
    ensures forall l :: l in r <==> l in db.auditLogs && l.jobId == jobId
    ensures forall l :: multiset(r)[l] == if l.jobId == jobId then multiset(db.auditLogs)[l] else 0
  {
    OwnedNewestFirst(db.auditLogs, AuditLogJobId, AuditLogCreatedAt, jobId);
    NewestFirst(Where(db.auditLogs, AuditLogJobId, jobId), AuditLogCreatedAt)
  }

  /** `list_billing_usage`: the billing records of one job, newest first. */
  function ListBillingUsage(db: Db, jobId: Uuid): (r: seq<BillingUsageRecord>)
    ensures NewestFirstOrder(r, BillingUsageCreatedAt)
    ensures forall b :: b in r <==> b in db.billingUsage && b.jobId == jobId
    ensures forall b :: multiset(r)[b] == if b.jobId == jobId then multiset(db.billingUsage)[b] else 0
  {
    OwnedNewestFirst(db.billingUsage, BillingUsageJobId, BillingUsageCreatedAt, jobId);
    NewestFirst(Where(db.billingUsage, BillingUsageJobId, jobId), BillingUsageCreatedAt)
  }

  // ----------------------------------------------------------------- writes

  /** The columns an `UPDATE jobs` statement sets. */
  datatype JobPatch =
    | StatusPatch(status: JobStatus, progressPercent: int, updatedAt: Timestamp)
    | OutputPatch(durationSeconds: int)

  function PatchRow(row: JobRow, p: JobPatch): JobRow {
    match p
    case StatusPatch(s, pct, at) => row.(status := StatusValue(s), progressPercent := pct, updatedAt := at)
    case OutputPatch(d) => row.(outputDurationSeconds := Some(d))
  }

  /** `UPDATE jobs SET ... WHERE id = ?` over the table. */
  function PatchRows(rows: seq<JobRow>, id: Uuid, p: JobPatch): (r: seq<JobRow>)
    ensures |r| == |rows|
  {
    if rows == [] then []
    else [if rows[0].id == id then PatchRow(rows[0], p) else rows[0]] + PatchRows(rows[1..], id, p)
  }

  /** A record with the patched columns changed and every other column kept. */
  function PatchJob(j: JobRecord, p: JobPatch): JobRecord {
    match p
    case StatusPatch(s, pct, at) => j.(status := s, progressPercent := pct, updatedAt := at)
    case OutputPatch(d) => j.(outputDurationSeconds := Some(d))
  }

  /** One committed statement of the store, in the order the store received them. */
  datatype Write =
    | InsertProject(project: ProjectRecord)
    | InsertJob(job: JobRecord)
    | UpdateJob(jobId: Uuid, patch: JobPatch)
    | InsertArtifact(artifact: ArtifactRecord)
    | InsertReview(review: ReviewRecord)
    | InsertAuditLog(log: AuditLogRecord)
    | InsertBillingUsage(usage: BillingUsageRecord)

  /** An insert whose primary key is not taken yet (an update is always accepted). */
  predicate Accepts(db: Db, w: Write) {
    match w
    case InsertProject(p) => p.id !in Keys(db.projects, ProjectId)
    case InsertJob(j) => j.id !in Keys(db.jobs, JobRowId)
    case UpdateJob(_, _) => true
    case InsertArtifact(a) => a.id !in Keys(db.artifacts, ArtifactId)
    case InsertReview(r) => r.id !in Keys(db.reviews, ReviewId)
    case InsertAuditLog(l) => l.id !in Keys(db.auditLogs, AuditLogId)
    case InsertBillingUsage(b) => b.id !in Keys(db.billingUsage, BillingUsageId)
  }

  /** The number of rows in the whole database. */
  function RowCount(db: Db): nat {
    |db.projects| + |db.jobs| + |db.artifacts| + |db.reviews| + |db.auditLogs| + |db.billingUsage|
  }

  /** The database after one accepted statement. */
  function Apply(db: Db, w: Write): Db {
    match w
    case InsertProject(p) => db.(projects := db.projects + [p])
    case InsertJob(j) => db.(jobs := db.jobs + [JobToRow(j)])
    case UpdateJob(id, p) => db.(jobs := PatchRows(db.jobs, id, p))
    case InsertArtifact(a) => db.(artifacts := db.artifacts + [a])
    case InsertReview(r) => db.(reviews := db.reviews + [r])
    case InsertAuditLog(l) => db.(auditLogs := db.auditLogs + [l])
    case InsertBillingUsage(b) => db.(billingUsage := db.billingUsage + [b])
  }

  // ------------------------------------------------------ facts about writes

  /** A patch rewrites the rows with the patched id and no other row. */
  lemma {:induction false} PatchRowsAt(rows: seq<JobRow>, id: Uuid, p: JobPatch, i: nat)
    requires i < |rows|
    ensures PatchRows(rows, id, p)[i] == if rows[i].id == id then PatchRow(rows[i], p) else rows[i]
  {
    if i > 0 {
      PatchRowsAt(rows[1..], id, p, i - 1);
    }
  }

  /** The key columns survive a patch, and so do the statuses' validity and the keys. */
  lemma PatchRowsKeepsShape(rows: seq<JobRow>, id: Uuid, p: JobPatch)
    ensures StatusesValid(rows) ==> StatusesValid(PatchRows(rows, id, p))
    ensures Keys(PatchRows(rows, id, p), JobRowId) == Keys(rows, JobRowId)
    ensures UniqueKeys(rows, JobRowId) ==> UniqueKeys(PatchRows(rows, id, p), JobRowId)
  {
    var r := PatchRows(rows, id, p);
    forall i | 0 <= i < |rows| ensures r[i].id == rows[i].id && (r[i] == rows[i] || r[i] == PatchRow(rows[i], p)) {
      PatchRowsAt(rows, id, p, i);
    }
    if StatusesValid(rows) {
      forall x | x in r ensures ParseStatus(x.status).Some? {
        var i :| 0 <= i < |r| && r[i] == x;
        assert rows[i] in rows;
      }
    }
    forall k | k in Keys(r, JobRowId) ensures k in Keys(rows, JobRowId) {
      var i :| 0 <= i < |r| && JobRowId(r[i]) == k;
      assert JobRowId(rows[i]) == k;
    }
    forall k | k in Keys(rows, JobRowId) ensures k in Keys(r, JobRowId) {
      var i :| 0 <= i < |rows| && JobRowId(rows[i]) == k;
      assert JobRowId(r[i]) == k;
    }
  }

  /** An UPDATE leaves every row in its place with its id, its project and its creation time. */
  lemma PatchRowsKeepsColumns(rows: seq<JobRow>, id: Uuid, p: JobPatch)
    ensures forall i :: 0 <= i < |rows| ==>
      && PatchRows(rows, id, p)[i].id == rows[i].id
      && PatchRows(rows, id, p)[i].projectId == rows[i].projectId
      && PatchRows(rows, id, p)[i].createdAt == rows[i].createdAt
  {
    forall i | 0 <= i < |rows|
      ensures PatchRows(rows, id, p)[i] == if rows[i].id == id then PatchRow(rows[i], p) else rows[i]
    {
      PatchRowsAt(rows, id, p, i);
    }
  }

  /** The row a patch changes is the row with the patched id; the rest stay as they were. */
  lemma {:induction false} FindPatchRows(rows: seq<JobRow>, id: Uuid, p: JobPatch, x: Uuid)
    ensures Find(PatchRows(rows, id, p), JobRowId, x) ==
      match Find(rows, JobRowId, x)
      case None => None
      case Some(row) => if x == id then Some(PatchRow(row, p)) else Some(row)
  {
    if rows != [] {
      FindPatchRows(rows[1..], id, p, x);
      var r := PatchRows(rows, id, p);
      assert r[0] == (if rows[0].id == id then PatchRow(rows[0], p) else rows[0]);
      assert r[1..] == PatchRows(rows[1..], id, p);
    }
  }

  /**
   * `update_job_status` / `update_job_output` as seen by `get_job`: the named
   * job comes back with exactly the patched columns changed, every other job
   * comes back as before, and an absent id stays absent.
   */
  lemma GetJobAfterUpdate(db: Db, id: Uuid, p: JobPatch, x: Uuid)
    requires StatusesValid(db.jobs)
    ensures StatusesValid(Apply(db, UpdateJob(id, p)).jobs)
    ensures GetJob(Apply(db, UpdateJob(id, p)), x) ==
      if x == id && GetJob(db, x).Some? then Some(PatchJob(GetJob(db, x).value, p)) else GetJob(db, x)
  {
    PatchRowsKeepsShape(db.jobs, id, p);
    FindPatchRows(db.jobs, id, p, x);
  }

  /** `get_job` reads the jobs table only. */
  lemma GetJobReadsJobs(d1: Db, d2: Db, x: Uuid)
    requires d1.jobs == d2.jobs && StatusesValid(d1.jobs)
    ensures GetJob(d1, x) == GetJob(d2, x)
  {
  }

  /** `get_job` after `create_job` returns the record that was inserted; other ids answer as before. */
  lemma GetJobAfterInsert(db: Db, j: JobRecord, x: Uuid)
    requires StatusesValid(db.jobs) && j.id !in Keys(db.jobs, JobRowId)
    ensures StatusesValid(Apply(db, InsertJob(j)).jobs)
    ensures GetJob(Apply(db, InsertJob(j)), x) == if x == j.id then Some(j) else GetJob(db, x)
  {
    FindAppend(db.jobs, JobRowId, JobToRow(j), x);
  }

  /** `get_project` after `create_project` returns the record that was inserted. */
  lemma GetProjectAfterInsert(db: Db, p: ProjectRecord, x: Uuid)
    requires p.id !in Keys(db.projects, ProjectId)
    ensures GetProject(Apply(db, InsertProject(p)), x) == if x == p.id then Some(p) else GetProject(db, x)
  {
    FindAppend(db.projects, ProjectId, p, x);
  }

  /** An INSERT adds one row to the database, an UPDATE none, and no statement deletes a row. */
  lemma ApplyRowCount(db: Db, w: Write)
    ensures RowCount(Apply(db, w)) == RowCount(db) + if w.UpdateJob? then 0 else 1
  {
  }

  /** An accepted statement keeps every table's keys unique and every status valid. */
  lemma ApplyKeepsWellFormed(db: Db, w: Write)
    requires WellFormed(db) && Accepts(db, w)
    ensures WellFormed(Apply(db, w))
  {
    match w
    case InsertProject(p) => UniqueKeysAppend(db.projects, ProjectId, p);
    case InsertJob(j) => UniqueKeysAppend(db.jobs, JobRowId, JobToRow(j));
    case UpdateJob(id, p) => PatchRowsKeepsShape(db.jobs, id, p);
    case InsertArtifact(a) => UniqueKeysAppend(db.artifacts, ArtifactId, a);
    case InsertReview(r) => UniqueKeysAppend(db.reviews, ReviewId, r);
    case InsertAuditLog(l) => UniqueKeysAppend(db.auditLogs, AuditLogId, l);
    case InsertBillingUsage(b) => UniqueKeysAppend(db.billingUsage, BillingUsageId, b);
  }

  // ------------------------------------------------------------ the store

  class Store {
    /** The database behind the connection. */
    var db: Db
    /** Every statement committed so far, oldest first. */
    ghost var journal: seq<Write>

    ghost predicate Valid()
      reads this
    {
      WellFormed(db)
    }

    /** Opening the store: `CREATE TABLE IF NOT EXISTS` keeps whatever the file already holds. */
    constructor Open(existing: Db)
      requires WellFormed(existing)
      ensures Valid() && db == existing && journal == []
    {
      db := existing;
      journal := [];
    }

    /** Commits one accepted statement. */
    method Commit(w: Write)
      requires Valid() && Accepts(db, w)
      modifies this
      ensures Valid()
      ensures db == Apply(old(db), w) && journal == old(journal) + [w]
    {
      ApplyKeepsWellFormed(db, w);
      db := Apply(db, w);
      journal := journal + [w];
    }

    /** An INSERT: a duplicate primary key raises IntegrityError (`ok` false) and changes nothing. */
    method Insert(w: Write) returns (ok: bool)
      requires Valid()
      requires !w.UpdateJob?
      modifies this
      ensures Valid()
      ensures ok <==> Accepts(old(db), w)
      ensures ok ==> db == Apply(old(db), w) && journal == old(journal) + [w]
      ensures !ok ==> db == old(db) && journal == old(journal)
    {
      ok := Accepts(db, w);
      if ok {
        Commit(w);
      }
    }

    method CreateProject(record: ProjectRecord) returns (ok: bool)
      requires Valid()
      modifies this
      ensures Valid()
      ensures ok <==> record.id !in Keys(old(db).projects, ProjectId)
      ensures ok ==> db == Apply(old(db), InsertProject(record)) && journal == old(journal) + [InsertProject(record)]
      ensures ok ==> GetProject(db, record.id) == Some(record)
      ensures !ok ==> db == old(db) && journal == old(journal)
    {
      ok := Insert(InsertProject(record));
      if ok {
        GetProjectAfterInsert(old(db), record, record.id);
      }
    }

    method CreateJob(record: JobRecord) returns (ok: bool)
      requires Valid()
      modifies this
      ensures Valid()
      ensures ok <==> record.id !in Keys(old(db).jobs, JobRowId)
      ensures ok ==> db == Apply(old(db), InsertJob(record)) && journal == old(journal) + [InsertJob(record)]
      ensures ok ==> GetJob(db, record.id) == Some(record)
      ensures !ok ==> db == old(db) && journal == old(journal)
    {
      ok := Insert(InsertJob(record));
      if ok {
        GetJobAfterInsert(old(db), record, record.id);
      }
    }

    /**
     * Sets status, progress and update time of one job, whatever its status
     * was (the transition table is not consulted), and reads it back.
     */
    method UpdateJobStatus(jobId: Uuid, status: JobStatus, progressPercent: int, updatedAt: Timestamp)
      returns (r: Option<JobRecord>)
      requires Valid()
      modifies this
      ensures Valid()
      ensures db == Apply(old(db), UpdateJob(jobId, StatusPatch(status, progressPercent, updatedAt)))
      ensures journal == old(journal) + [UpdateJob(jobId, StatusPatch(status, progressPercent, updatedAt))]
      ensures r == GetJob(db, jobId)
      ensures r.Some? <==> GetJob(old(db), jobId).Some?
      ensures r.Some? ==> r.value == GetJob(old(db), jobId).value.(status := status,
        progressPercent := progressPercent, updatedAt := updatedAt)
      ensures forall x :: x != jobId ==> GetJob(db, x) == GetJob(old(db), x)
    {
      var w := UpdateJob(jobId, StatusPatch(status, progressPercent, updatedAt));
      PatchRowsKeepsShape(db.jobs, jobId, w.patch);
      forall x ensures GetJob(Apply(db, w), x) ==
        if x == jobId && GetJob(db, x).Some? then Some(PatchJob(GetJob(db, x).value, w.patch)) else GetJob(db, x)
      {
        GetJobAfterUpdate(db, jobId, w.patch, x);
      }
      Commit(w);
      r := GetJob(db, jobId);
    }

    /** Sets the output duration of one job and nothing else. */
    method UpdateJobOutput(jobId: Uuid, durationSeconds: int)
      requires Valid()
      modifies this
      ensures Valid()
      ensures db == Apply(old(db), UpdateJob(jobId, OutputPatch(durationSeconds)))
      ensures journal == old(journal) + [UpdateJob(jobId, OutputPatch(durationSeconds))]
      ensures GetJob(old(db), jobId).Some? ==>
        GetJob(db, jobId) == Some(GetJob(old(db), jobId).value.(outputDurationSeconds := Some(durationSeconds)))
      ensures forall x :: x != jobId || GetJob(old(db), jobId).None? ==> GetJob(db, x) == GetJob(old(db), x)
    {
      var w := UpdateJob(jobId, OutputPatch(durationSeconds));
      PatchRowsKeepsShape(db.jobs, jobId, w.patch);
      forall x ensures GetJob(Apply(db, w), x) ==
        if x == jobId && GetJob(db, x).Some? then Some(PatchJob(GetJob(db, x).value, w.patch)) else GetJob(db, x)
      {
        GetJobAfterUpdate(db, jobId, w.patch, x);
      }
      Commit(w);
    }

    method CreateArtifact(record: ArtifactRecord) returns (ok: bool)
      requires Valid()
      modifies this
      ensures Valid()
      ensures ok <==> record.id !in Keys(old(db).artifacts, ArtifactId)
      ensures ok ==> db == old(db).(artifacts := old(db).artifacts + [record])
      ensures ok ==> journal == old(journal) + [InsertArtifact(record)]
      ensures !ok ==> db == old(db) && journal == old(journal)
    {
      ok := Insert(InsertArtifact(record));
    }

    method CreateReview(record: ReviewRecord) returns (ok: bool)
      requires Valid()
      modifies this
      ensures Valid()
      ensures ok <==> record.id !in Keys(old(db).reviews, ReviewId)
      ensures ok ==> db == old(db).(reviews := old(db).reviews + [record])
      ensures ok ==> journal == old(journal) + [InsertReview(record)]
      ensures !ok ==> db == old(db) && journal == old(journal)
    {
      ok := Insert(InsertReview(record));
    }

    method CreateAuditLog(record: AuditLogRecord) returns (ok: bool)
      requires Valid()
      modifies this
      ensures Valid()
      ensures ok <==> record.id !in Keys(old(db).auditLogs, AuditLogId)
      ensures ok ==> db == old(db).(auditLogs := old(db).auditLogs + [record])
      ensures ok ==> journal == old(journal) + [InsertAuditLog(record)]
      ensures !ok ==> db == old(db) && journal == old(journal)
    {
      ok := Insert(InsertAuditLog(record));
    }

    method CreateBillingUsage(record: BillingUsageRecord) returns (ok: bool)
      requires Valid()
      modifies this
      ensures Valid()
      ensures ok <==> record.id !in Keys(old(db).billingUsage, BillingUsageId)
      ensures ok ==> db == old(db).(billingUsage := old(db).billingUsage + [record])
      ensures ok ==> journal == old(journal) + [InsertBillingUsage(record)]
      ensures !ok ==> db == old(db) && journal == old(journal)
    {
      ok := Insert(InsertBillingUsage(record));
    }
  }
}
