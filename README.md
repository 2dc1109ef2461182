# Video job service: job states, SQLite store and request handlers

The service turns slides and audio into a narrated video.

- A *job* belongs to a *project*.
- A job is created QUEUED.
- A background render moves the job to RUNNING_RENDER. It then ends at NEEDS_REVIEW, or at FAILED when a step raises.
- A reviewer then approves or rejects the job.

Every step leaves rows in a SQLite database with six tables: projects, jobs, job artifacts, job reviews, audit logs and billing usage.

This project models three parts of that service in Dafny:

- the job state machine of `api/app/domain/job_states.py`;
- the store of `api/app/storage/sqlite.py`;
- the handlers of `api/app/main.py` that write to the store:
  - `create_job` and `create_job_simple`;
  - `_get_default_project` and `_log`;
  - the background `_run_render`;
  - `review_job`;
  - the artifact lookup of `download_artifact`.

It then proves what these promise.

Files, one module each:

- `job_states.dfy` (`JobStates`): the six statuses, the transition table, `can_transition` and `progress_for_status`. Every legal path climbs a stage, so the table has no cycle and no path longer than three transitions.
- `rows.dfy` (`Rows`): tables as sequences in insertion order.
  - `Find` models `WHERE id = ?` followed by `fetchone()`.
  - `Where` models `WHERE <column> = ?`.
  - `NewestFirst` models `ORDER BY created_at DESC`, as a stable insertion sort.
- `records.dfy` (`Records`): the record types. The jobs table holds its status as text. `_row_to_job` reads it back through `JobStatus(text)`.
- `storage.dfy` (`Storage`): the database `Db`, the read queries as functions, the seven kinds of statement as a `Write` datatype, and the class `Store`.
  - `Store` has the database as a field that its methods reassign.
  - A ghost `journal` field records every committed statement in order.
  - An insert with a duplicate primary key changes nothing and reports failure, as `IntegrityError` does.
- `journal.dfy` (`Journal`): runs of statements.
  - `ApplyAll` applies a run.
  - `JobView` says what `get_job` answers after a run.
  - `Picks` gives the rows a run appends.
- `consistency.dfy` (`Consistency`): the invariant the handlers keep:
  - primary keys are unique;
  - every job's progress matches its status;
  - every job names an existing project;
  - every artifact, review, audit entry and billing row names an existing job.

  The schema declares no foreign keys. This invariant comes only from the order in which the handlers write.
- `app.dfy` (`App`): the handlers as methods on a `Store`.
  - A pure function lists each handler's statements in order: `CreateJobWrites`, `ReviewWrites`, `RenderWrites`.
  - Each method ensures it commits exactly those statements and keeps `Consistent`.
  - Lemmas say what the store answers afterwards.
- `scenarios.dfy` (`Scenarios`): whole request sequences on a fresh store. One creates a job under the default project, renders it to a ten-second video, and approves it.

The code has only the six statuses of `job_states.py`, and `_run_render` goes straight from RUNNING_RENDER to NEEDS_REVIEW or FAILED.

## Model

| member | source | states |
|---|---|---|
| JobStates.CanTransition | api/app/domain/job_states.py:23-24 | An allowed transition changes the status and leaves a non-terminal status. APPROVED and REJECTED are reached only from NEEDS_REVIEW. Nothing goes back to QUEUED. |
| JobStates.ProgressForStatus | api/app/domain/job_states.py:27-36 | Progress is 0 for QUEUED and FAILED, 60 for RUNNING_RENDER, 80 for NEEDS_REVIEW, 100 for APPROVED and REJECTED, and always within 0..100. |
| JobStates.Stage | api/app/domain/job_states.py:5-20 | A stage is at most 3, and is 3 exactly for the terminal statuses (those with no outgoing transition). |
| JobStates.TableIsTotal | api/app/domain/job_states.py:13-20 | The transition table has an entry for every status. |
| JobStates.CanTransitionExactly | api/app/domain/job_states.py:13-24 | `can_transition` holds for exactly the six edges of the table and no other pair. |
| JobStates.TransitionRaisesStage | api/app/domain/job_states.py:13-24 | Every allowed transition goes to a strictly higher stage. |
| JobStates.ProgressIncreases | api/app/domain/job_states.py:13-36 | Along an allowed transition to any status but FAILED, progress strictly increases. |
| JobStates.ChainClimbsStages | api/app/domain/job_states.py:13-24 | Along a path of allowed transitions, the stage rises by at least the number of steps. |
| JobStates.ChainHasAtMostThreeSteps | api/app/domain/job_states.py:13-24 | Every path of allowed transitions has at most three steps. |
| JobStates.NoCycle | api/app/domain/job_states.py:13-24 | No path of one or more allowed transitions returns to its start. |
| Rows.Find | api/app/storage/sqlite.py:179-191 | The lookup finds a row exactly when the key is present, and the row it returns has that key. |
| Rows.FindUnique | api/app/storage/sqlite.py:84-146 | With unique primary keys, the row found for a row's key is that row. |
| Rows.FindAppend | api/app/storage/sqlite.py:154-167 | After inserting a fresh key, a lookup gives the new row for its key and the old answer for every other key. |
| Rows.Where | api/app/storage/sqlite.py:217-223 | The filter keeps exactly the rows owned by the id, each as often as the table holds it, and drops every other row. |
| Rows.WhereAppend | api/app/storage/sqlite.py:264-295 | Filtering after an append gives the old selection plus the new row when it is owned by the id. |
| Rows.UniqueKeysAppend | api/app/storage/sqlite.py:84-146 | Appending a row with a fresh key keeps the PRIMARY KEY constraint. |
| Rows.InsertNewestFirst | api/app/storage/sqlite.py:169-177 | Inserting into a newest-first sequence keeps it newest first and adds exactly the new row. |
| Rows.NewestFirst | api/app/storage/sqlite.py:169-177 | `ORDER BY created_at DESC` returns a permutation of the selected rows in non-increasing creation time. |
| Rows.ListingAppend | api/app/storage/sqlite.py:264-295 | Appending a row adds exactly that row to its owner's listing, and every other owner's listing stays the same sequence. |
| Rows.OwnedNewestFirst | api/app/storage/sqlite.py:282-295 | Filtering then ordering lists exactly the owned rows. |
| Records.StatusValue | api/app/domain/job_states.py:5-11 | The text written for a status parses back to that status. |
| Records.ParseStatusOnlyValues | api/app/storage/sqlite.py:385-399 | `JobStatus(text)` accepts exactly the six status values, each naming one status. |
| Records.JobToRow | api/app/storage/sqlite.py:193-215 | The stored row keeps the key columns, stores a status text that parses to the job's status, and `_row_to_job` reads it back as the same record. |
| Records.RowToJob | api/app/storage/sqlite.py:385-399 | `_row_to_job` keeps the row's id, project and creation time, and its status is the one whose value is the stored text. |
| Records.RowRoundTrip | api/app/storage/sqlite.py:385-399 | A row with a valid status, read back and written again, is the same row. |
| Records.RowsToJobs | api/app/storage/sqlite.py:217-228 | Reading a result set gives one record per row, in the same order: the i-th record is stored as the i-th row. |
| Records.RowsToJobsCount | api/app/storage/sqlite.py:217-228 | Each record occurs in the result as often as the row that stores it, so a record appears exactly when its row does. |
| Storage.GetProject | api/app/storage/sqlite.py:179-191 | `get_project` returns a project exactly when the id is a key. The project returned is in the table with that id. |
| Storage.ListProjects | api/app/storage/sqlite.py:169-177 | `list_projects` returns every project, each as often as stored, newest first. |
| Storage.GetJob | api/app/storage/sqlite.py:230-237 | `get_job` returns a job exactly when the id is a key. The job returned has that id and its row is in the table. |
| Storage.ListJobs | api/app/storage/sqlite.py:217-223 | `list_jobs` returns exactly the jobs of the project, each as often as its row is stored, newest first. |
| Storage.ListAllJobs | api/app/storage/sqlite.py:225-228 | `list_all_jobs` returns exactly the stored jobs, each as often as its row is stored, newest first. |
| Storage.ListArtifacts | api/app/storage/sqlite.py:282-295 | Returns exactly the artifacts of the job, each as often as stored, newest first. |
| Storage.ListReviews | api/app/storage/sqlite.py:313-325 | Returns exactly the reviews of the job, each as often as stored, newest first. |
| Storage.ListAuditLogs | api/app/storage/sqlite.py:343-355 | Returns exactly the audit entries of the job, each as often as stored, newest first. |
| Storage.ListBillingUsage | api/app/storage/sqlite.py:372-383 | Returns exactly the billing rows of the job, each as often as stored, newest first. |
| Storage.PatchRowsKeepsShape | api/app/storage/sqlite.py:239-262 | An UPDATE keeps the set of keys, their uniqueness and the validity of every status text. |
| Storage.PatchRowsKeepsColumns | api/app/storage/sqlite.py:239-262 | An UPDATE leaves every row in its place with its own id, project and creation time. |
| Storage.PatchRows | api/app/storage/sqlite.py:239-262 | `UPDATE jobs ... WHERE id = ?` keeps the number of rows. |
| Storage.PatchRowsAt | api/app/storage/sqlite.py:239-262 | `UPDATE jobs ... WHERE id = ?` rewrites every row with that id by the patch and leaves every other row as it was. |
| Storage.ApplyRowCount | api/app/storage/sqlite.py:154-370 | Applying a statement (`Apply`): an INSERT adds exactly one row to the database, an UPDATE none, and no statement deletes a row. |
| Storage.GetJobAfterUpdate | api/app/storage/sqlite.py:239-262 | After an UPDATE of one job, `get_job` answers the patched job for it and the old answer for every other id. |
| Storage.GetJobAfterInsert | api/app/storage/sqlite.py:193-237 | After inserting a job with a fresh id, `get_job` answers it for its id and the old answer for every other id. |
| Storage.GetProjectAfterInsert | api/app/storage/sqlite.py:154-191 | After inserting a project with a fresh id, `get_project` answers it for its id and the old answer for every other id. |
| Storage.ApplyKeepsWellFormed | api/app/storage/sqlite.py:84-146 | An accepted statement keeps every primary key unique and every status text valid. |
| Storage.Store.Open | api/app/storage/sqlite.py:72-79 | Opening the store keeps the existing database, with nothing yet committed. |
| Storage.Store.Insert | api/app/storage/sqlite.py:154-370 | An INSERT commits exactly when its key is fresh. A duplicate key changes nothing. |
| Storage.Store.CreateProject | api/app/storage/sqlite.py:154-167 | Inserts the project exactly when its id is fresh. `get_project` then returns it. |
| Storage.Store.CreateJob | api/app/storage/sqlite.py:193-215 | Inserts the job exactly when its id is fresh. `get_job` then returns it. |
| Storage.Store.UpdateJobStatus | api/app/storage/sqlite.py:239-255 | Sets status, progress and update time without consulting the transition table. Returns `get_job` afterwards: the old job with those three fields changed, or None for an unknown id. Every other job is unchanged. |
| Storage.Store.UpdateJobOutput | api/app/storage/sqlite.py:257-262 | Sets only the output duration of that job. Every other job is unchanged. |
| Storage.Store.CreateArtifact | api/app/storage/sqlite.py:264-280 | Appends the artifact exactly when its id is fresh. Nothing else changes. |
| Storage.Store.CreateReview | api/app/storage/sqlite.py:297-311 | Appends the review exactly when its id is fresh. Nothing else changes. |
| Storage.Store.CreateAuditLog | api/app/storage/sqlite.py:327-341 | Appends the audit entry exactly when its id is fresh. Nothing else changes. |
| Storage.Store.CreateBillingUsage | api/app/storage/sqlite.py:357-370 | Appends the billing row exactly when its id is fresh. Nothing else changes. |
| Journal.ApplyAllConcat | api/app/storage/sqlite.py:154-370 | Applying two runs in turn is applying their concatenation. |
| Journal.GetJobApplyAll | api/app/storage/sqlite.py:230-262 | After a run that inserts no job, `get_job` follows that run's updates of the job, in order. |
| Journal.JobViewUntouched | api/app/storage/sqlite.py:239-262 | A run that updates no row of a job leaves what `get_job` answers for it unchanged. |
| Journal.ApplyAllAppendsTable | api/app/storage/sqlite.py:264-370 | A table that every statement extends by the rows it inserts grows, over a run, by exactly those rows in order. |
| Journal.ApplyAllAppends | api/app/storage/sqlite.py:154-370 | Projects, artifacts, reviews, audit entries and billing rows are only appended to: each table grows by exactly the rows the run inserts, in order. |
| Consistency.ApplyKeepsConsistent | api/app/storage/sqlite.py:154-370 | A statement the handlers may issue keeps keys unique, progress matching status, and every reference pointing to an existing row. |
| Consistency.ApplyAllKeepsConsistent | api/app/main.py:207-426 | A run of such statements keeps the same invariant. |
| App.Log | api/app/main.py:136-145 | `_log` appends one audit entry with the given action and detail, and leaves the jobs as they were. |
| App.GetDefaultProject | api/app/main.py:148-159 | With projects, returns the newest one and writes nothing. Without, creates a project with the default title and returns it. Either way the project is stored and no project is newer. |
| App.NewJob | api/app/main.py:311-325 | The new job copies the request and is QUEUED with progress 0 and no output, created and updated now. |
| App.InsertNewJob | api/app/main.py:310-326 | The part shared with `create_job_simple` (lines 465-481): builds the QUEUED job, inserts it, then its `job.create` entry; these statements may be issued whenever the project exists. |
| App.CreateJob | api/app/main.py:305-327 | 422 for a non-positive target duration and 404 for an unknown project, writing nothing. Otherwise the new job and its `job.create` entry are committed, and the invariant is kept. |
| App.CreatedJobIsVisible | api/app/main.py:305-327 | After creation, `get_job` returns the new job and every other job is unchanged. |
| App.CreatedJobHistory | api/app/main.py:305-327 | A new job's history is its `job.create` entry alone: no artifact, review or billing row. |
| App.CreateJobSimple | api/app/main.py:462-482 | 422 for a non-positive target duration. Otherwise the job is created under the newest project, or under a new default project when there is none. The invariant is kept. |
| App.LowerChar | api/app/main.py:399 | An upper-case letter A-Z becomes the letter at the same place of the lower-case alphabet; no A-Z is left and every other character is kept. |
| App.Lower | api/app/main.py:399 | Lowering keeps the length, turns each of A-Z into its lower-case letter at the same place, and changes no other character. |
| App.ParseDecision | api/app/main.py:399-403 | A decision is accepted exactly when its lowered text is `approved` or `rejected`, giving that status. |
| App.ReviewCheck | api/app/main.py:393-405 | 404 exactly when the job is unknown. Success exactly when the job is at NEEDS_REVIEW and the decision parses, giving the decided status. Otherwise the 400 of the failed check. |
| App.ReviewJob | api/app/main.py:393-426 | Fails exactly when the checks fail, and then writes nothing. Otherwise it commits the review, the status update and the audit entry, returns the updated job, and keeps the invariant. |
| App.RecordReview | api/app/main.py:407-425 | Commits exactly the review statements. Returns the job at the decided status with that status's progress and the new update time. |
| App.ReviewAllowed | api/app/main.py:407-422 | The statements of an accepted review refer to an existing job, use fresh ids and set progress from the status. |
| App.ReviewRowsOutcome | api/app/main.py:407-422 | A review appends one review row holding the decision and one `review.<decision>` audit entry, and rewrites the job's row. Projects, artifacts and billing are untouched. |
| App.ReviewJobOutcome | api/app/main.py:403-425 | After an approval or rejection of an existing job, `get_job` answers it at that status with progress 100 and the new update time. Every other job is unchanged. |
| App.RenderStartPhase | api/app/main.py:213-220 | Writes the `render.start` entry, then moves the job to RUNNING_RENDER at progress 60. |
| App.StoreVideo | api/app/main.py:225-245 | Registers the video artifact exactly when the worker succeeded, the video exists and the copy succeeded. Jobs, audit and billing are untouched. |
| App.HexTextInjective | api/app/main.py:234 | Below 16 to the power of the width, two numbers have the same fixed-width hex text exactly when they are equal. |
| App.UuidTextDigits | api/app/main.py:234 | `str(uuid)` is the UUID's 32 hex digits with hyphens after the 8th, 12th, 16th and 20th. |
| App.UuidTextInjective | api/app/main.py:234 | Two 128-bit UUIDs have the same text exactly when they are equal. |
| App.ArtifactUriIdentifiesJob | api/app/main.py:234-241 | The video's `storage_uri` is `ARTIFACTS_DIR / f"{job_id}_final_1080p.mp4"`: renders of one job register the same path, and two jobs never share one. |
| App.RecordDuration | api/app/main.py:246-256 | A non-zero measured duration is stored on the job, then billed as one row with that duration. |
| App.RenderOutputPhase | api/app/main.py:225-256 | The try block up to the final status: the artifact and billing statements, and whether nothing raised. |
| App.FailureDetail | api/app/main.py:264-271 | The `render.failed` detail is the fixed prefix followed by the exception's text, which is `output video not found` when the worker left no video. |
| App.RenderEndPhase | api/app/main.py:257-271 | Moves the job to NEEDS_REVIEW and logs `render.complete`, or moves it to FAILED and logs `render.failed` with the error text. |
| App.RunRender | api/app/main.py:207-271 | An unknown job: nothing is written. Otherwise exactly the statements of one render attempt, whatever the job's status, and the invariant is kept. |
| App.RenderWritesTouchOneJob | api/app/main.py:207-271 | A render inserts no job and updates only its own. |
| App.RenderJobOutcome | api/app/main.py:207-271 | After a render, the job is at NEEDS_REVIEW exactly when nothing raised and at FAILED otherwise, with that status's progress and the final update time, carrying the measured duration when one was billed. |
| App.RenderLeavesOtherJobs | api/app/main.py:207-271 | A render leaves every other job as it was. |
| App.RenderRowsOutcome | api/app/main.py:213-271 | A render appends its start entry and one closing entry, the artifact when stored, and a billing row when billed. Projects and reviews are untouched. |
| App.RenderSkipsTransitionTable | api/app/main.py:215-262 | An APPROVED job, which may not move to RUNNING_RENDER, ends at NEEDS_REVIEW when a re-render succeeds. |
| App.ProbeFailureKeepsArtifact | api/app/main.py:234-270 | When the probe raises after the video was registered, the job ends FAILED, the artifact stays, and nothing is billed. |
| App.FindInArtifactListing | api/app/main.py:450-455 | Searching the job's artifact listing finds the artifact with that id exactly when it belongs to the job. |
| App.DownloadArtifact | api/app/main.py:445-459 | 404 job not found, 404 artifact not found unless the artifact belongs to the job, 404 file not found unless its file exists. Otherwise that artifact. |
| Scenarios.DefaultProjectIsReused | api/app/main.py:148-159 | Two `create_job_simple` calls on an empty store put both jobs under the one default project created by the first. |
| Scenarios.FirstJobState | api/app/main.py:462-482 | The database after the first simple job creation holds the default project, the job and its `job.create` entry, and nothing else. |
| Scenarios.RenderThenApprove | api/app/main.py:207-426 | Create, render to a ten-second video, approve with decision `APPROVED`: the job ends APPROVED at 100 with its duration of 10 seconds. |

## Left out

- `web/app.js`, FastAPI routing, CORS, the health endpoint and the response shape of `_job_to_response` are not modelled. This includes its aggregation of artifacts, reviews and billing, and its time formatting.
- The read-only endpoints (`list_projects`, `get_project`, `list_jobs`, `get_job`, `list_job_artifacts`, `list_jobs_simple`) only call the store. The store's queries are modelled; the endpoint wrappers are not.
- `create_project` (the endpoint) is only `store.create_project`, which is modelled.
- Request validation other than `target_duration_seconds > 0` is not modelled.
- `upload_inputs`, `_ensure_directories`, `_extract_audio_zip` and the file writing are not modelled, because they are file system work.
- `render_job`: its thread start and its `render.request` audit entry are not modelled. The render itself is `RunRender`.
- The worker subprocess, the file system, `shutil.copyfile` and ffprobe are not modelled. What they do becomes the parameters of `RenderEnv`. Alongside those parameters, `RenderEnv` carries the artifacts directory, which the service fixes at start-up. The video's path is derived from that directory and the job id. Because there is no file system, the model does not capture that a second render of a job overwrites the file its first artifact row points to.
- `_probe_duration` is modelled as its result: a whole number of seconds, or None when it raises. Its parsing of ffprobe's output is not modelled.
- Threads and concurrent requests are not modelled. Each handler runs alone against the store.
- SQL text, the SQLite connection and store errors other than duplicate primary keys are not modelled.
- uuid4 and utcnow become caller-supplied ids and times. Fresh ids are a precondition: uuid4 does not collide. A UUID is a natural number; its text (`UuidText`) is that of its low 128 bits, since a real UUID never exceeds them.
- Timestamps are integers rather than ISO strings. Artifact metadata is a string map rather than JSON text.
- Tie order under `ORDER BY created_at DESC` is not fixed by SQLite. The model keeps insertion order among equal times.
- `str.lower` is modelled on ASCII letters only. No other character lowers into `approved` or `rejected`.
- RunRender: the `if not updated: return` branch of `_run_render` is not a separate branch. The job was just read and nothing deletes jobs, so the update always finds it.
- ReviewJob: the final 404 of `review_job` is not a separate branch, for the same reason.
- RunRender: an exception raised inside the `except` block itself (a failing store write while recording FAILED) is not modelled.
