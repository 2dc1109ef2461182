/**
 * The invariant the request handlers of api/app/main.py keep over the store,
 * although the store itself enforces none of it: every job's progress is the
 * one its status prescribes, and every row refers to a project or job that
 * existed when the row was written (nothing is ever deleted).
 */
module Consistency {
  import opened JobStates
  import opened Rows
  import opened Records
  import opened Storage
  import opened Journal

  predicate Consistent(db: Db) {
    && WellFormed(db)
    && (forall r :: r in db.jobs ==> r.progressPercent == ProgressForStatus(ParseStatus(r.status).value))
    && (forall r :: r in db.jobs ==> r.projectId in Keys(db.projects, ProjectId))
    && (forall a :: a in db.artifacts ==> a.jobId in Keys(db.jobs, JobRowId))
    && (forall v :: v in db.reviews ==> v.jobId in Keys(db.jobs, JobRowId))
    && (forall l :: l in db.auditLogs ==> l.jobId in Keys(db.jobs, JobRowId))
    && (forall b :: b in db.billingUsage ==> b.jobId in Keys(db.jobs, JobRowId))
  }

  /**
   * A statement the handlers may issue: an accepted insert that refers to an
   * existing parent, with progress set from the status.
   */
  predicate Allowed(db: Db, w: Write) {
    && Accepts(db, w)
    && match w
       case InsertProject(_) => true
       case InsertJob(j) =>
         j.projectId in Keys(db.projects, ProjectId) && j.progressPercent == ProgressForStatus(j.status)
       case UpdateJob(_, p) => p.StatusPatch? ==> p.progressPercent == ProgressForStatus(p.status)
       case InsertArtifact(a) => a.jobId in Keys(db.jobs, JobRowId)
       case InsertReview(v) => v.jobId in Keys(db.jobs, JobRowId)
       case InsertAuditLog(l) => l.jobId in Keys(db.jobs, JobRowId)
       case InsertBillingUsage(b) => b.jobId in Keys(db.jobs, JobRowId)
  }

  predicate AllAllowed(db: Db, ws: seq<Write>)
    decreases |ws|
  {
    ws == [] || (Allowed(db, ws[0]) && AllAllowed(Apply(db, ws[0]), ws[1..]))
  }

  lemma {:induction false} AllAllowedSnoc(db: Db, ws: seq<Write>, w: Write)
    ensures AllAllowed(db, ws + [w]) <==> AllAllowed(db, ws) && Allowed(ApplyAll(db, ws), w)
    decreases |ws|
  {
    if ws == [] {
      assert [w][1..] == [];
    } else {
      assert (ws + [w])[0] == ws[0] && (ws + [w])[1..] == ws[1..] + [w];
      AllAllowedSnoc(Apply(db, ws[0]), ws[1..], w);
    }
  }

  /** One more statement at the end of a run: its effect and whether it was allowed. */
  lemma ExtendRun(db: Db, ws: seq<Write>, w: Write)
    ensures ApplyAll(db, ws + [w]) == Apply(ApplyAll(db, ws), w)
    ensures AllAllowed(db, ws + [w]) <==> AllAllowed(db, ws) && Allowed(ApplyAll(db, ws), w)
  {
    ApplyAllSnoc(db, ws, w);
    AllAllowedSnoc(db, ws, w);
  }

  lemma {:induction false} AllAllowedConcat(db: Db, a: seq<Write>, b: seq<Write>)
    ensures AllAllowed(db, a + b) <==> AllAllowed(db, a) && AllAllowed(ApplyAll(db, a), b)
    decreases |a|
  {
    if a == [] {
      assert a + b == b;
    } else {
      assert (a + b)[0] == a[0] && (a + b)[1..] == a[1..] + b;
      AllAllowedConcat(Apply(db, a[0]), a[1..], b);
    }
  }

  lemma AllowedPair(db: Db, w1: Write, w2: Write)
    requires Allowed(db, w1) && Allowed(Apply(db, w1), w2)
    ensures AllAllowed(db, [w1, w2])
  {
    assert [w1, w2][1..] == [w2];
    assert [w2][1..] == [];
  }

  /** Three allowed runs, one after the other, are one allowed run. */
  lemma ThreeRuns(db: Db, a: seq<Write>, b: seq<Write>, c: seq<Write>)
    requires AllAllowed(db, a) && AllAllowed(ApplyAll(db, a), b) && AllAllowed(ApplyAll(ApplyAll(db, a), b), c)
    ensures ApplyAll(db, a + b + c) == ApplyAll(ApplyAll(ApplyAll(db, a), b), c)
    ensures AllAllowed(db, a + b + c)
  {
    ApplyAllConcat(db, a, b);
    ApplyAllConcat(db, a + b, c);
    AllAllowedConcat(db, a, b);
    AllAllowedConcat(db, a + b, c);
  }

  /** Every allowed statement keeps the invariant. */
  lemma ApplyKeepsConsistent(db: Db, w: Write)
    requires Consistent(db) && Allowed(db, w)
    ensures Consistent(Apply(db, w))
  {
    ApplyKeepsWellFormed(db, w);
    match w {
      case InsertProject(p) =>
        KeysAppend(db.projects, ProjectId, p);
      case InsertJob(j) =>
        InsertJobKeepsConsistent(db, j);
      case UpdateJob(id, p) =>
        UpdateJobKeepsConsistent(db, id, p);
      case InsertArtifact(a) =>
      case InsertReview(v) =>
      case InsertAuditLog(l) =>
      case InsertBillingUsage(b) =>
    }
  }

  lemma InsertJobKeepsConsistent(db: Db, j: JobRecord)
    requires Consistent(db) && Allowed(db, InsertJob(j))
    ensures Consistent(Apply(db, InsertJob(j)))
  {
    var d := Apply(db, InsertJob(j));
    ApplyKeepsWellFormed(db, InsertJob(j));
    KeysAppend(db.jobs, JobRowId, JobToRow(j));
    forall r | r in d.jobs
      ensures r.progressPercent == ProgressForStatus(ParseStatus(r.status).value)
    {
      if r != JobToRow(j) { assert r in db.jobs; }
    }
  }

  lemma UpdateJobKeepsConsistent(db: Db, id: Uuid, p: JobPatch)
    requires Consistent(db) && Allowed(db, UpdateJob(id, p))
    ensures Consistent(Apply(db, UpdateJob(id, p)))
  {
    var d := Apply(db, UpdateJob(id, p));
    ApplyKeepsWellFormed(db, UpdateJob(id, p));
    PatchRowsKeepsShape(db.jobs, id, p);
    forall r | r in d.jobs
      ensures r.progressPercent == ProgressForStatus(ParseStatus(r.status).value)
      ensures r.projectId in Keys(db.projects, ProjectId)
    {
      var i :| 0 <= i < |d.jobs| && d.jobs[i] == r;
      PatchRowsAt(db.jobs, id, p, i);
      assert db.jobs[i] in db.jobs;
    }
  }

  lemma {:induction false} ApplyAllKeepsConsistent(db: Db, ws: seq<Write>)
    requires Consistent(db) && AllAllowed(db, ws)
    ensures Consistent(ApplyAll(db, ws))
    decreases |ws|
  {
    if ws != [] {
      ApplyKeepsConsistent(db, ws[0]);
      ApplyAllKeepsConsistent(Apply(db, ws[0]), ws[1..]);
    }
  }
}
