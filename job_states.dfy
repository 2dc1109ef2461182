/**
 * The job state machine of api/app/domain/job_states.py: six statuses, a fixed
 * successor table, the legality test and the progress percentage of a status.
 */
module JobStates {

  datatype JobStatus = Queued | RunningRender | NeedsReview | Approved | Rejected | Failed

  /** The successor table: each status with the statuses it may move to. */
  const Transitions: map<JobStatus, set<JobStatus>> := map[
    Queued        := {RunningRender, Failed},
    RunningRender := {NeedsReview, Failed},
    NeedsReview   := {Approved, Rejected},
    Approved      := {},
    Rejected      := {},
    Failed        := {}
  ]

  /** The three statuses that end a job's life. */
  predicate IsTerminal(s: JobStatus) {
    s == Approved || s == Rejected || s == Failed
  }

  /**
   * A move is legal when the target is among the current status's successors
   * (a status missing from the table would have none).
   */
  function CanTransition(current: JobStatus, target: JobStatus): (r: bool)
    ensures r ==> current != target
    ensures r ==> !IsTerminal(current)
    ensures r && (target == Approved || target == Rejected) ==> current == NeedsReview
    ensures r ==> target != Queued
  {
    current in Transitions && target in Transitions[current]
  }

  /** The percentage shown for a status; a status missing from the mapping shows 0. */
  function ProgressForStatus(status: JobStatus): (p: int)
    ensures 0 <= p <= 100
    ensures status == Queued || status == Failed ==> p == 0
    ensures status == Approved || status == Rejected ==> p == 100
    ensures status == RunningRender ==> p == 60
    ensures status == NeedsReview ==> p == 80
  {
    var mapping := map[
      Queued        := 0,
      RunningRender := 60,
      NeedsReview   := 80,
      Approved      := 100,
      Rejected      := 100,
      Failed        := 0
    ];
    if status in mapping then mapping[status] else 0
  }

  /** How far along the pipeline a status is; every legal move raises it. */
  function Stage(s: JobStatus): (n: nat)
    ensures n <= 3
    ensures IsTerminal(s) <==> n == 3
  {
    match s
    case Queued => 0
    case RunningRender => 1
    case NeedsReview => 2
    case _ => 3
  }

  /** The table has an entry for every status. */
  lemma TableIsTotal(s: JobStatus)
    ensures s in Transitions
  {
  }

  /** can_transition holds exactly for the six edges of the table. */
  lemma CanTransitionExactly(c: JobStatus, t: JobStatus)
    ensures CanTransition(c, t) <==>
      (c == Queued && (t == RunningRender || t == Failed)) ||
      (c == RunningRender && (t == NeedsReview || t == Failed)) ||
      (c == NeedsReview && (t == Approved || t == Rejected))
  {
  }

  /** Every legal move strictly raises the stage. */
  lemma TransitionRaisesStage(c: JobStatus, t: JobStatus)
    requires CanTransition(c, t)
    ensures Stage(c) < Stage(t)
  {
  }

  /** Progress strictly increases along every legal move that does not fail the job. */
  lemma ProgressIncreases(c: JobStatus, t: JobStatus)
    requires CanTransition(c, t) && t != Failed
    ensures ProgressForStatus(c) < ProgressForStatus(t)
  {
  }

  /** A sequence of statuses in which each one legally follows the one before. */
  predicate IsChain(path: seq<JobStatus>) {
    forall i :: 0 <= i < |path| - 1 ==> CanTransition(path[i], path[i + 1])
  }

  /** In a chain the last status is at least as many stages in as the chain has moves. */
  lemma {:induction false} ChainClimbsStages(path: seq<JobStatus>)
    requires |path| > 0 && IsChain(path)
    ensures Stage(path[|path| - 1]) >= Stage(path[0]) + |path| - 1
  {
    if |path| > 1 {
      var init := path[..|path| - 1];
      assert IsChain(init) by {
        forall i | 0 <= i < |init| - 1
          ensures CanTransition(init[i], init[i + 1])
        {
          assert init[i] == path[i] && init[i + 1] == path[i + 1];
        }
      }
      ChainClimbsStages(init);
      TransitionRaisesStage(path[|path| - 2], path[|path| - 1]);
    }
  }

  /** The graph is acyclic: no chain of legal moves has more than three steps. */
  lemma ChainHasAtMostThreeSteps(path: seq<JobStatus>)
    requires IsChain(path)
    ensures |path| <= 4
  {
    if |path| > 0 {
      ChainClimbsStages(path);
    }
  }

  /** In particular no status can come back to itself through legal moves. */
  lemma NoCycle(path: seq<JobStatus>)
    requires |path| > 1 && IsChain(path)
    ensures path[0] != path[|path| - 1]
  {
    ChainClimbsStages(path);
  }
}
