/**
 * Facts about a run of committed statements: the database it leaves, what
 * `get_job` answers afterwards, and which rows it appends to the append-only
 * tables. The orchestration in api/app/main.py is described by the statements
 * it commits, so these facts turn such a description into its outcome.
 */
module Journal {
  import opened Wrappers
  import opened Rows
  import opened Records
  import opened Storage

  /** The database after a sequence of accepted statements. */
  function ApplyAll(db: Db, ws: seq<Write>): Db
    decreases |ws|
  {
    if ws == [] then db else ApplyAll(Apply(db, ws[0]), ws[1..])
  }

  lemma {:induction false} ApplyAllSnoc(db: Db, ws: seq<Write>, w: Write)
    ensures ApplyAll(db, ws + [w]) == Apply(ApplyAll(db, ws), w)
    decreases |ws|
  {
    if ws == [] {
      assert [w][1..] == [];
    } else {
      assert (ws + [w])[0] == ws[0] && (ws + [w])[1..] == ws[1..] + [w];
      ApplyAllSnoc(Apply(db, ws[0]), ws[1..], w);
    }
  }

  lemma {:induction false} ApplyAllConcat(db: Db, a: seq<Write>, b: seq<Write>)
    ensures ApplyAll(db, a + b) == ApplyAll(ApplyAll(db, a), b)
    decreases |a|
  {
    if a == [] {
      assert a + b == b;
    } else {
      assert (a + b)[0] == a[0] && (a + b)[1..] == a[1..] + b;
      ApplyAllConcat(Apply(db, a[0]), a[1..], b);
    }
  }

  lemma ApplyAllOne(db: Db, w: Write)
    ensures ApplyAll(db, [w]) == Apply(db, w)
  {
    assert [w][1..] == [];
  }

  lemma ApplyAllTwo(db: Db, w1: Write, w2: Write)
    ensures ApplyAll(db, [w1, w2]) == Apply(Apply(db, w1), w2)
  {
    assert [w1, w2][1..] == [w2];
    ApplyAllOne(Apply(db, w1), w2);
  }

  lemma ApplyAllThree(db: Db, w1: Write, w2: Write, w3: Write)
    ensures ApplyAll(db, [w1, w2, w3]) == Apply(Apply(Apply(db, w1), w2), w3)
  {
    assert [w1, w2, w3][1..] == [w2, w3];
    ApplyAllTwo(Apply(db, w1), w2, w3);
  }

  // ------------------------------------------------ what get_job sees

  /** What `get_job(x)` answers after one statement, given what it answered before. */
  function StepView(j: Option<JobRecord>, x: Uuid, w: Write): Option<JobRecord> {
    match w
    case UpdateJob(id, p) => if id == x && j.Some? then Some(PatchJob(j.value, p)) else j
    case _ => j
  }

  /** What `get_job(x)` answers after a run of statements. */
  function JobView(j: Option<JobRecord>, x: Uuid, ws: seq<Write>): Option<JobRecord>
    decreases |ws|
  {
    if ws == [] then j else JobView(StepView(j, x, ws[0]), x, ws[1..])
  }

  /** A run that creates no job (every orchestration except job creation). */
  predicate NoJobInserts(ws: seq<Write>) {
    forall i :: 0 <= i < |ws| ==> !ws[i].InsertJob?
  }

  /** `get_job` after a run that creates no job follows the run's updates of that job, in order. */
  lemma {:induction false} GetJobApplyAll(db: Db, ws: seq<Write>, x: Uuid)
    requires StatusesValid(db.jobs) && NoJobInserts(ws)
    ensures StatusesValid(ApplyAll(db, ws).jobs)
    ensures GetJob(ApplyAll(db, ws), x) == JobView(GetJob(db, x), x, ws)
    decreases |ws|
  {
    if ws != [] {
      var w := ws[0];
      assert !w.InsertJob?;
      if w.UpdateJob? {
        GetJobAfterUpdate(db, w.jobId, w.patch, x);
      }
      assert GetJob(Apply(db, w), x) == StepView(GetJob(db, x), x, w);
      assert NoJobInserts(ws[1..]) by {
        forall i | 0 <= i < |ws[1..]| ensures !ws[1..][i].InsertJob? {
          assert ws[1..][i] == ws[i + 1];
        }
      }
      GetJobApplyAll(Apply(db, w), ws[1..], x);
    }
  }

  lemma {:induction false} JobViewConcat(j: Option<JobRecord>, x: Uuid, a: seq<Write>, b: seq<Write>)
    ensures JobView(j, x, a + b) == JobView(JobView(j, x, a), x, b)
    decreases |a|
  {
    if a == [] {
      assert a + b == b;
    } else {
      assert (a + b)[0] == a[0] && (a + b)[1..] == a[1..] + b;
      JobViewConcat(StepView(j, x, a[0]), x, a[1..], b);
    }
  }

  /** Statements that update no row of job `x` leave its view alone. */
  lemma {:induction false} JobViewUntouched(j: Option<JobRecord>, x: Uuid, ws: seq<Write>)
    requires forall i :: 0 <= i < |ws| && ws[i].UpdateJob? ==> ws[i].jobId != x
    ensures JobView(j, x, ws) == j
    decreases |ws|
  {
    if ws != [] {
      assert forall i :: 0 <= i < |ws[1..]| ==> ws[1..][i] == ws[i + 1];
      JobViewUntouched(j, x, ws[1..]);
    }
  }

  lemma JobViewTwo(j: Option<JobRecord>, x: Uuid, w1: Write, w2: Write)
    ensures JobView(j, x, [w1, w2]) == StepView(StepView(j, x, w1), x, w2)
  {
    var j1 := StepView(j, x, w1);
    assert [w1, w2][1..] == [w2];
    assert [w2][1..] == [];
    assert JobView(j1, x, [w2]) == JobView(StepView(j1, x, w2), x, []);
  }

  // ----------------------------------------- rows appended to a table

  /** The rows of one kind that a run of statements inserts, in order. */
  function Picks<T>(ws: seq<Write>, pick: Write -> Option<T>): seq<T>
    decreases |ws|
  {
    if ws == [] then []
    else Picked(pick(ws[0])) + Picks(ws[1..], pick)
  }

  function PickProject(w: Write): Option<ProjectRecord> {
    if w.InsertProject? then Some(w.project) else None
  }
  function PickArtifact(w: Write): Option<ArtifactRecord> {
    if w.InsertArtifact? then Some(w.artifact) else None
  }
  function PickReview(w: Write): Option<ReviewRecord> {
    if w.InsertReview? then Some(w.review) else None
  }
  function PickAuditLog(w: Write): Option<AuditLogRecord> {
    if w.InsertAuditLog? then Some(w.log) else None
  }
  function PickBillingUsage(w: Write): Option<BillingUsageRecord> {
    if w.InsertBillingUsage? then Some(w.usage) else None
  }

  function Picked<T>(o: Option<T>): seq<T> {
    match o case Some(r) => [r] case None => []
  }

  lemma ApplyAppends(db: Db, w: Write)
    ensures Apply(db, w).projects == db.projects + Picked(PickProject(w))
    ensures Apply(db, w).artifacts == db.artifacts + Picked(PickArtifact(w))
    ensures Apply(db, w).reviews == db.reviews + Picked(PickReview(w))
    ensures Apply(db, w).auditLogs == db.auditLogs + Picked(PickAuditLog(w))
    ensures Apply(db, w).billingUsage == db.billingUsage + Picked(PickBillingUsage(w))
  {
  }

  // Projects, artifacts, reviews, audit entries and billing rows are only ever appended to.

  /** A table that every statement extends by the rows it picks grows by a run's picks, in order. */
  lemma {:induction false} ApplyAllAppendsTable<T>(db: Db, ws: seq<Write>, table: Db -> seq<T>, pick: Write -> Option<T>)
    requires forall d, w :: table(Apply(d, w)) == table(d) + Picked(pick(w))
    ensures table(ApplyAll(db, ws)) == table(db) + Picks(ws, pick)
    decreases |ws|
  {
    if ws == [] {
      assert table(db) + [] == table(db);
    } else {
      var d1 := Apply(db, ws[0]);
      ApplyAllAppendsTable(d1, ws[1..], table, pick);
      calc {
        table(ApplyAll(db, ws));
        table(ApplyAll(d1, ws[1..]));
        table(db) + Picked(pick(ws[0])) + Picks(ws[1..], pick);
        table(db) + (Picked(pick(ws[0])) + Picks(ws[1..], pick));
        table(db) + Picks(ws, pick);
      }
    }
  }

  lemma ApplyAllAppends(db: Db, ws: seq<Write>)
    ensures ApplyAll(db, ws).projects == db.projects + Picks(ws, PickProject)
    ensures ApplyAll(db, ws).artifacts == db.artifacts + Picks(ws, PickArtifact)
    ensures ApplyAll(db, ws).reviews == db.reviews + Picks(ws, PickReview)
    ensures ApplyAll(db, ws).auditLogs == db.auditLogs + Picks(ws, PickAuditLog)
    ensures ApplyAll(db, ws).billingUsage == db.billingUsage + Picks(ws, PickBillingUsage)
  {
    forall d, w ensures Apply(d, w).projects == d.projects + Picked(PickProject(w)) { ApplyAppends(d, w); }
    ApplyAllAppendsTable(db, ws, (d: Db) => d.projects, PickProject);
    forall d, w ensures Apply(d, w).artifacts == d.artifacts + Picked(PickArtifact(w)) { ApplyAppends(d, w); }
    ApplyAllAppendsTable(db, ws, (d: Db) => d.artifacts, PickArtifact);
    forall d, w ensures Apply(d, w).reviews == d.reviews + Picked(PickReview(w)) { ApplyAppends(d, w); }
    ApplyAllAppendsTable(db, ws, (d: Db) => d.reviews, PickReview);
    forall d, w ensures Apply(d, w).auditLogs == d.auditLogs + Picked(PickAuditLog(w)) { ApplyAppends(d, w); }
    ApplyAllAppendsTable(db, ws, (d: Db) => d.auditLogs, PickAuditLog);
    forall d, w ensures Apply(d, w).billingUsage == d.billingUsage + Picked(PickBillingUsage(w)) { ApplyAppends(d, w); }
    ApplyAllAppendsTable(db, ws, (d: Db) => d.billingUsage, PickBillingUsage);
  }
}
