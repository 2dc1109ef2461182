/**
 * The record dataclasses of api/app/storage/sqlite.py, the TEXT form in which
 * a job's status is stored, and `_row_to_job`, which turns a stored job row
 * back into a record.
 */
module Records {
  import opened Wrappers
  import opened JobStates
  import opened Rows

  datatype ProjectRecord = ProjectRecord(
    id: Uuid,
    title: string,
    referenceNote: string,
    createdAt: Timestamp)

  datatype JobRecord = JobRecord(
    id: Uuid,
    projectId: Uuid,
    title: string,
    purpose: string,
    tone: string,
    targetDurationSeconds: int,
    status: JobStatus,
    progressPercent: int,
    outputDurationSeconds: Option<int>,
    createdAt: Timestamp,
    updatedAt: Timestamp)

  /** A row of the `jobs` table: the record with its status held as text. */
  datatype JobRow = JobRow(
    id: Uuid,
    projectId: Uuid,
    title: string,
    purpose: string,
    tone: string,
    targetDurationSeconds: int,
    status: string,
    progressPercent: int,
    outputDurationSeconds: Option<int>,
    createdAt: Timestamp,
    updatedAt: Timestamp)

  /** Metadata is a JSON object in the source; here it is an uninterpreted string map. */
  datatype ArtifactRecord = ArtifactRecord(
    id: Uuid,
    jobId: Uuid,
    artifactType: string,
    storageUri: string,
    metadata: map<string, string>,
    createdAt: Timestamp)

  datatype ReviewRecord = ReviewRecord(
    id: Uuid,
    jobId: Uuid,
    decision: string,
    comment: Option<string>,
    createdAt: Timestamp)

  datatype AuditLogRecord = AuditLogRecord(
    id: Uuid,
    jobId: Uuid,
    action: string,
    detail: string,
    createdAt: Timestamp)

  datatype BillingUsageRecord = BillingUsageRecord(
    id: Uuid,
    jobId: Uuid,
    durationSeconds: int,
    createdAt: Timestamp)

  // The columns the store's queries select on, as functions of a row.

  function ProjectId(p: ProjectRecord): Uuid { p.id }
  function ProjectCreatedAt(p: ProjectRecord): Timestamp { p.createdAt }
  function JobRowId(r: JobRow): Uuid { r.id }
  function JobRowProjectId(r: JobRow): Uuid { r.projectId }
  function JobRowCreatedAt(r: JobRow): Timestamp { r.createdAt }
  function JobCreatedAt(j: JobRecord): Timestamp { j.createdAt }
  function ArtifactId(a: ArtifactRecord): Uuid { a.id }
  function ArtifactJobId(a: ArtifactRecord): Uuid { a.jobId }
  function ArtifactCreatedAt(a: ArtifactRecord): Timestamp { a.createdAt }
  function ReviewId(r: ReviewRecord): Uuid { r.id }
  function ReviewJobId(r: ReviewRecord): Uuid { r.jobId }
  function ReviewCreatedAt(r: ReviewRecord): Timestamp { r.createdAt }
  function AuditLogId(l: AuditLogRecord): Uuid { l.id }
  function AuditLogJobId(l: AuditLogRecord): Uuid { l.jobId }
  function AuditLogCreatedAt(l: AuditLogRecord): Timestamp { l.createdAt }
  function BillingUsageId(b: BillingUsageRecord): Uuid { b.id }
  function BillingUsageJobId(b: BillingUsageRecord): Uuid { b.jobId }
  function BillingUsageCreatedAt(b: BillingUsageRecord): Timestamp { b.createdAt }

  /** The enum's string value (`status.value`), the text written to the `status` column. */
  function StatusValue(s: JobStatus): (t: string)
    ensures ParseStatus(t) == Some(s)
  {
    match s
    case Queued => "queued"
    case RunningRender => "running_render"
    case NeedsReview => "needs_review"
    case Approved => "approved"
    case Rejected => "rejected"
    case Failed => "failed"
  }

  /**
   * `JobStatus(text)`: the status whose value is `text`; the source raises
   * ValueError where this gives None.
   */
  function ParseStatus(t: string): (r: Option<JobStatus>)
  {
    if t == "queued" then Some(Queued)
    else if t == "running_render" then Some(RunningRender)
    else if t == "needs_review" then Some(NeedsReview)
    else if t == "approved" then Some(Approved)
    else if t == "rejected" then Some(Rejected)
    else if t == "failed" then Some(Failed)
    else None
  }

  /** Only the six status values are accepted, each naming exactly one status. */
  lemma ParseStatusOnlyValues(t: string)
    ensures ParseStatus(t).Some? ==> StatusValue(ParseStatus(t).value) == t
    ensures ParseStatus(t).None? <==> forall s: JobStatus :: StatusValue(s) != t
  {
    if ParseStatus(t).None? {
      forall s: JobStatus ensures StatusValue(s) != t {
        assert ParseStatus(StatusValue(s)) == Some(s);
      }
    }
  }

  /** Every row whose status text names a status. */
  predicate StatusesValid(rows: seq<JobRow>) {
    forall r :: r in rows ==> ParseStatus(r.status).Some?
  }

  /** `create_job`'s parameter tuple: the record with its status written as text. */
  function JobToRow(j: JobRecord): (r: JobRow)
    ensures r.id == j.id && r.projectId == j.projectId && r.createdAt == j.createdAt
    ensures ParseStatus(r.status) == Some(j.status)
    ensures RowToJob(r) == j
  {
    JobRow(j.id, j.projectId, j.title, j.purpose, j.tone, j.targetDurationSeconds,
           StatusValue(j.status), j.progressPercent, j.outputDurationSeconds,
           j.createdAt, j.updatedAt)
  }

  /** `_row_to_job`: a stored row read back as a record. */
  function RowToJob(row: JobRow): (j: JobRecord)
    requires ParseStatus(row.status).Some?
    ensures j.id == row.id && j.projectId == row.projectId && j.createdAt == row.createdAt
    ensures StatusValue(j.status) == row.status
  {
    ParseStatusOnlyValues(row.status);
    JobRecord(row.id, row.projectId, row.title, row.purpose, row.tone, row.targetDurationSeconds,
              ParseStatus(row.status).value, row.progressPercent, row.outputDurationSeconds,
              row.createdAt, row.updatedAt)
  }

  /** Reading a row and writing the record back gives the same row. */
  lemma RowRoundTrip(row: JobRow)
    requires ParseStatus(row.status).Some?
    ensures JobToRow(RowToJob(row)) == row
  {
    ParseStatusOnlyValues(row.status);
  }

  /** The records of a sequence of rows, in the same order. */
  function RowsToJobs(rows: seq<JobRow>): (js: seq<JobRecord>)
    requires StatusesValid(rows)
    ensures |js| == |rows|
    ensures forall i :: 0 <= i < |rows| ==> JobToRow(js[i]) == rows[i]
  {
    if rows == [] then []
    else
      assert StatusesValid(rows[1..]) by {
        forall r | r in rows[1..] ensures ParseStatus(r.status).Some? {
          assert r in rows;
        }
      }
      RowRoundTrip(rows[0]);
      [RowToJob(rows[0])] + RowsToJobs(rows[1..])
  }

  /** Each record occurs as often as the row that stores it. */
  lemma {:induction false} RowsToJobsCount(rows: seq<JobRow>)
    requires StatusesValid(rows)
    ensures forall j :: multiset(RowsToJobs(rows))[j] == multiset(rows)[JobToRow(j)]
    ensures forall j :: j in RowsToJobs(rows) <==> JobToRow(j) in rows
  {
    var js := RowsToJobs(rows);
    if rows != [] {
      var row := rows[0];
      assert rows == [row] + rows[1..];
      assert StatusesValid(rows[1..]) by {
        forall r | r in rows[1..] ensures ParseStatus(r.status).Some? {
          assert r in rows;
        }
      }
      RowsToJobsCount(rows[1..]);
      RowRoundTrip(row);
      assert js == [RowToJob(row)] + RowsToJobs(rows[1..]);
      forall j ensures multiset(js)[j] == multiset(rows)[JobToRow(j)] {
        assert RowToJob(row) == j <==> row == JobToRow(j);
      }
    }
    forall j ensures j in js <==> JobToRow(j) in rows {
      assert j in js <==> multiset(js)[j] > 0;
      assert JobToRow(j) in rows <==> multiset(rows)[JobToRow(j)] > 0;
    }
  }
}
