/** The sync_jobs row and the updates that hit it. None of them guards on the stored status, so any of them
    can follow any other. */
module SyncJobs {
  import opened Sql

  datatype Status = Pending | Running | Completed | Failed | Canceled

  datatype Job = Job(status: Status, progress: int, errorMessage: Option<string>, startedAt: Option<int>, finishedAt: Option<int>)

  datatype Update =
    | MarkRunning(progress: int, at: int)
    | UpdateProgress(progress: int, at: int)
    | Complete(at: int)
    | MarkFailed(message: string, at: int)
    | Cancel(at: int)
    | Retry(at: int)

  const NEW_JOB: Job := Job(Pending, 0, None, None, None)

  function Updated(j: Job, u: Update): Job {
    match u
    case MarkRunning(progress, at) =>
      Job(Running, progress, None, Coalesce(j.startedAt, Some(at)), None)
    case UpdateProgress(progress, _) =>
      j.(progress := progress)
    case Complete(at) =>
      j.(status := Completed, progress := 100, errorMessage := None, finishedAt := Some(at))
    case MarkFailed(message, at) =>
      j.(status := Failed, errorMessage := Some(message), finishedAt := Some(at))
    case Cancel(at) =>
      j.(status := Canceled, errorMessage := None, finishedAt := Some(at))
    case Retry(_) =>
      Job(Pending, 0, None, None, None)
  }

  function After(us: seq<Update>): Job {
    if us == [] then NEW_JOB else Updated(After(us[..|us| - 1]), us[|us| - 1])
  }

  predicate Terminal(s: Status) {
    s == Completed || s == Failed || s == Canceled
  }

  predicate Consistent(j: Job) {
    (j.finishedAt.Some? <==> Terminal(j.status)) &&
    (j.errorMessage.Some? <==> j.status == Failed) &&
    (j.status == Running ==> j.startedAt.Some?)
  }

  /** Under every interleaving of the updates finished_at is set exactly for terminal jobs, error_message exactly
      for failed ones, and a running job has a start. */
  lemma {:induction false} AlwaysConsistent(us: seq<Update>)
    ensures Consistent(After(us))
  {
    if us != [] { AlwaysConsistent(us[..|us| - 1]); }
  }

  /** Position of the first MarkRunning since the last Retry, -1 if there is none. */
  function FirstStart(us: seq<Update>): (i: int)
    ensures -1 <= i < |us|
    ensures i >= 0 ==> us[i].MarkRunning?
  {
    if us == [] then -1
    else
      var i := FirstStart(us[..|us| - 1]);
      match us[|us| - 1]
      case Retry(_) => -1
      case MarkRunning(_, _) => if i >= 0 then i else |us| - 1
      case _ => i
  }

  /** A job that is started again keeps the time of its first start since the last retry. */
  lemma {:induction false} StartedAtIs(us: seq<Update>)
    ensures After(us).startedAt == if FirstStart(us) >= 0 then Some(us[FirstStart(us)].at) else None
  {
    if us != [] { StartedAtIs(us[..|us| - 1]); }
  }

  /** Position of the last update but progress updates, -1 if there is none. */
  function LastDecisive(us: seq<Update>): (i: int)
    ensures -1 <= i < |us|
    ensures forall j :: i < j < |us| ==> us[j].UpdateProgress?
  {
    if us == [] then -1 else if us[|us| - 1].UpdateProgress? then LastDecisive(us[..|us| - 1]) else |us| - 1
  }

  /** How a job stands: status, error and end. */
  predicate Stands(j: Job, status: Status, error: Option<string>, finishedAt: Option<int>) {
    j.status == status && j.errorMessage == error && j.finishedAt == finishedAt
  }

  /** The last update that is not about progress decides how the job stands. */
  lemma {:induction false} LastDecides(us: seq<Update>)
    ensures var i, j := LastDecisive(us), After(us);
            if i < 0 then Stands(j, Pending, None, None)
            else
              match us[i]
              case MarkRunning(_, _) => Stands(j, Running, None, None)
              case Complete(at) => Stands(j, Completed, None, Some(at))
              case MarkFailed(message, at) => Stands(j, Failed, Some(message), Some(at))
              case Cancel(at) => Stands(j, Canceled, None, Some(at))
              case Retry(_) => Stands(j, Pending, None, None)
              case UpdateProgress(_, _) => false
  {
    if us != [] { LastDecides(us[..|us| - 1]); }
  }

  /** Progress is what the last start or progress update said, 100 after a completion and 0 in the beginning and after a retry. */
  lemma {:induction false} ProgressIs(us: seq<Update>, u: Update)
    ensures After([]).progress == 0
    ensures After(us + [u]).progress ==
            if u.MarkRunning? || u.UpdateProgress? then u.progress
            else if u.Complete? then 100
            else if u.Retry? then 0
            else After(us).progress
  {
    assert (us + [u])[..|us|] == us;
  }

  /** Canceled is not a state a job is kept in: the next update of a run that has not noticed overwrites it. */
  lemma {:induction false} CanceledIsNotSticky(us: seq<Update>, u: Update)
    requires After(us).status == Canceled
    ensures After(us + [u]).status == Canceled <==> u.UpdateProgress? || u.Cancel?
  {
    assert (us + [u])[..|us|] == us;
  }
}
