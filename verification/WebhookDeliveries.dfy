/** The life of a webhook delivery: recorded once, retried with growing delays, given up after five failures. */
module WebhookDeliveries {
  import opened Sql
  import opened Text
  import opened Sorting

  // ---------------------------------------------------------------- retry delays, in seconds

  const BASE_DELAY: int := 30
  const MAX_DELAY: int := 15 * 60
  const MAX_RETRIES: int := 5

  function Pow2(n: nat): (r: nat)
    ensures r > 0
  {
    if n == 0 then 1 else 2 * Pow2(n - 1)
  }

  function RetryDelay(attempt: int): int {
    var n := if attempt < 1 then 1 else attempt;
    if BASE_DELAY * Pow2(n - 1) >= MAX_DELAY then MAX_DELAY else BASE_DELAY * Pow2(n - 1)
  }

  lemma {:induction false} Pow2Grows(m: nat, n: nat)
    requires m <= n
    ensures Pow2(m) <= Pow2(n)
  {
    if m < n { Pow2Grows(m, n - 1); }
  }

  method RetryDelayForAttempt(attempt: int) returns (delay: int)
    ensures delay == RetryDelay(attempt)
  {
    var n := if attempt < 1 then 1 else attempt;
    delay := BASE_DELAY;
    for i := 1 to n
      invariant delay == BASE_DELAY * Pow2(i - 1) && delay < MAX_DELAY
    {
      delay := delay * 2;
      if delay >= MAX_DELAY {
        Pow2Grows(i, n - 1);
        return MAX_DELAY;
      }
    }
  }

  // ---------------------------------------------------------------- rows and statements

  /** What the trimmed event type is to the service. */
  datatype Kind = Supported | Installation | Other

  datatype Status = Enqueued | Ignored | Processed | Failed | DeadLetter

  datatype Delivery = Delivery(
    kind: Kind, hasRepository: bool, syncJob: Option<nat>,
    status: Status, processed: bool, retryCount: int,
    errorMessage: Option<string>, nextRetryAt: Option<int>, processedAt: Option<int>, receivedAt: int)

  /** jobs[i] is the delivery that created sync job i. */
  datatype State = State(deliveries: map<string, Delivery>, jobs: seq<string>)

  /** The rows EnqueueWebhookSync writes in one transaction, unless the delivery id is already taken. */
  function Inserted(s: State, id: string, kind: Kind, hasRepository: bool, enqueueJob: bool, at: int): State {
    if id in s.deliveries then s
    else if enqueueJob && hasRepository then
      State(s.deliveries[id := Delivery(kind, hasRepository, Some(|s.jobs|), Enqueued, false, 0, None, None, None, at)], s.jobs + [id])
    else
      State(s.deliveries[id := Delivery(kind, hasRepository, None, Ignored, !enqueueJob, 0, None, None, Some(at), at)], s.jobs)
  }

  /** Handle asks for a job, and projects the payload, for a supported event of an active repository. */
  predicate WantsJob(kind: Kind, hasRepository: bool) {
    kind.Supported? && hasRepository
  }

  function Marked(d: Delivery, status: Status, message: Option<string>, at: int): Delivery {
    d.(status := status,
       errorMessage := if status.Failed? then message else None,
       nextRetryAt := if status.Failed? then d.nextRetryAt else None,
       processedAt := Some(at),
       processed := if status.Processed? || status.Ignored? then true else d.processed)
  }

  function Scheduled(d: Delivery, message: string, retryCount: int, failedAt: int, nextRetryAt: int): Delivery {
    d.(status := Failed, errorMessage := Some(message), retryCount := retryCount,
       nextRetryAt := Some(nextRetryAt), processedAt := Some(failedAt), processed := false)
  }

  /** scheduleRetryFailure, given the retry count its caller knows. */
  function FailureRecorded(d: Delivery, retryCount: int, message: string, at: int): Delivery {
    if retryCount + 1 >= MAX_RETRIES then Marked(d, DeadLetter, Some(message), at)
    else Scheduled(d, message, retryCount + 1, at, at + RetryDelay(retryCount + 1))
  }

  function DerivedStatus(kind: Kind, enqueued: bool): Status {
    if enqueued && kind.Supported? then Enqueued
    else if kind.Installation? then Processed
    else Ignored
  }

  /** How the calls of one processing go: whether the payload parses, the error of the projection, whether an installation
      handler takes the event, and its error. */
  datatype Calls = Calls(parses: bool, projection: Option<string>, handled: bool, handler: Option<string>)

  function CallError(d: Delivery, c: Calls): Option<string> {
    if WantsJob(d.kind, d.hasRepository) && c.projection.Some? then c.projection
    else if d.kind.Installation? && c.handled then c.handler
    else None
  }

  /** processPersistedDelivery's status write. */
  function ProcessedRow(d: Delivery, handled: bool, at: int): Delivery {
    if d.kind.Installation? && handled then Marked(d, Processed, None, at)
    else if !d.kind.Supported? then Marked(d, Ignored, None, at)
    else d
  }

  /** A row after Handle, and after Retry, has worked on it. */
  function HandledRow(d: Delivery, c: Calls, at: int): Delivery {
    match CallError(d, c)
    case Some(message) => FailureRecorded(d, 0, message, at)
    case None => ProcessedRow(d, c.handled, at)
  }

  function RetriedRow(d: Delivery, c: Calls, at: int): Delivery {
    match CallError(d, c)
    case Some(message) => FailureRecorded(d, d.retryCount, message, at)
    case None => Marked(ProcessedRow(d, c.handled, at), DerivedStatus(d.kind, d.syncJob.Some?), None, at)
  }

  /** A payload that does not parse ends Handle before anything is recorded, and Retry before the projection. */
  predicate RetryParses(d: Delivery, c: Calls) {
    WantsJob(d.kind, d.hasRepository) ==> c.parses
  }

  function HandledState(s: State, id: string, kind: Kind, hasRepository: bool, c: Calls, at: int): State {
    if !c.parses || id in s.deliveries then s
    else
      var inserted := Inserted(s, id, kind, hasRepository, WantsJob(kind, hasRepository), at);
      inserted.(deliveries := inserted.deliveries[id := HandledRow(inserted.deliveries[id], c, at)])
  }

  function RetriedState(s: State, id: string, c: Calls, at: int): State {
    if id !in s.deliveries || !s.deliveries[id].status.Failed? || !RetryParses(s.deliveries[id], c) then s
    else s.(deliveries := s.deliveries[id := RetriedRow(s.deliveries[id], c, at)])
  }

  datatype Step =
    | Deliver(id: string, kind: Kind, hasRepository: bool, calls: Calls, at: int)
    | RetryOf(id: string, calls: Calls, at: int)

  /** The step processes the delivery and a call fails. */
  predicate CountedFailure(s: State, step: Step, id: string) {
    step.id == id &&
    match step
    case Deliver(_, kind, hasRepository, c, at) =>
      c.parses && id !in s.deliveries &&
      CallError(Inserted(s, id, kind, hasRepository, WantsJob(kind, hasRepository), at).deliveries[id], c).Some?
    case RetryOf(_, c, _) =>
      id in s.deliveries && s.deliveries[id].status.Failed? && RetryParses(s.deliveries[id], c) && CallError(s.deliveries[id], c).Some?
  }

  // ---------------------------------------------------------------- due retries

  predicate IsRetryable(d: Delivery, now: int) {
    d.status.Failed? && d.nextRetryAt.Some? && d.nextRetryAt.value <= now && d.retryCount < MAX_RETRIES
  }

  function Retryable(s: State, now: int): set<string> {
    set id | id in s.deliveries && IsRetryable(s.deliveries[id], now)
  }

  /** Next retry time, then receipt time; a retryable delivery has both. */
  function RetryOrder(s: State, id: string): (int, int) {
    if id in s.deliveries && s.deliveries[id].nextRetryAt.Some?
    then (s.deliveries[id].nextRetryAt.value, s.deliveries[id].receivedAt) else (0, 0)
  }

  predicate Earlier(s: State, a: string, b: string) {
    var (x, y) := (RetryOrder(s, a), RetryOrder(s, b));
    x.0 < y.0 || (x.0 == y.0 && x.1 < y.1)
  }

  /** a is retried before b, or at the same time and was not received later. */
  predicate NotAfter(a: Delivery, b: Delivery) {
    a.nextRetryAt.Some? && b.nextRetryAt.Some? &&
    (a.nextRetryAt.value < b.nextRetryAt.value || (a.nextRetryAt == b.nextRetryAt && a.receivedAt <= b.receivedAt))
  }

  /** The first `limit` of the retryable deliveries in retry order, ties in any order. */
  ghost predicate IsRetryList(ids: seq<string>, s: State, now: int, limit: nat) {
    (forall i :: 0 <= i < |ids| ==> ids[i] in Retryable(s, now)) &&
    (forall i, j :: 0 <= i < j < |ids| ==> ids[i] != ids[j] && NotAfter(s.deliveries[ids[i]], s.deliveries[ids[j]])) &&
    |ids| == (if |Retryable(s, now)| < limit then |Retryable(s, now)| else limit) &&
    (forall id, i :: id in Retryable(s, now) && id !in ids && 0 <= i < |ids| ==> NotAfter(s.deliveries[ids[i]], s.deliveries[id]))
  }

  /** Some way to break ties. */
  function InOrder(s: State): (string, string) -> bool {
    (a: string, b: string) => Earlier(s, a, b) || (!Earlier(s, b, a) && StringLess(a, b))
  }

  lemma {:induction false} InOrderIsStrict(s: State)
    ensures StrictOrder(InOrder(s))
  {
    forall a: string ensures !InOrder(s)(a, a) { StringLessIsStrict(a); }
    forall a: string, b: string, c: string | InOrder(s)(a, b) && InOrder(s)(b, c) ensures InOrder(s)(a, c) {
      if !Earlier(s, a, b) && !Earlier(s, b, c) { StringLessIsTransitive(a, b, c); }
    }
  }

  lemma {:induction false} DistinctInOrder(s: State, ids: seq<string>)
    requires forall i, j :: 0 <= i < j < |ids| ==> ids[i] != ids[j]
    ensures Comparable(ids, InOrder(s))
  {
    forall i, j | 0 <= i < j < |ids| ensures InOrder(s)(ids[i], ids[j]) || InOrder(s)(ids[j], ids[i]) {
      StringLessIsTotal(ids[i], ids[j]);
    }
  }

  /** All of a set, once each, in order. */
  ghost predicate IsSorted(sorted: seq<string>, all: set<string>, s: State) {
    Ascending(sorted, InOrder(s)) && Elements(sorted) == all && |sorted| == |all|
  }

  lemma {:induction false} SortedIsSorted(s: State, all: set<string>, found: seq<(string, bool)>, unsorted: seq<string>)
    requires IsListing(found, map id | id in all :: true)
    requires |unsorted| == |found| && forall i :: 0 <= i < |found| ==> unsorted[i] == found[i].0
    ensures IsSorted(Sort(unsorted, InOrder(s)), all, s)
  {
    var sorted := Sort(unsorted, InOrder(s));
    InOrderIsStrict(s);
    DistinctInOrder(s, unsorted);
    SortIsAscending(unsorted, InOrder(s));
    SameMembers(unsorted, sorted);
    forall id | id in all ensures id in unsorted {
      var m := map x | x in all :: true;
      assert (id, m[id]) in found;
      var i :| 0 <= i < |found| && found[i] == (id, m[id]);
      assert unsorted[i] == id;
    }
    assert Elements(sorted) == all;
    forall i, j | 0 <= i < j < |sorted| ensures sorted[i] != sorted[j] {
      assert InOrder(s)(sorted[i], sorted[j]) && !InOrder(s)(sorted[i], sorted[i]);
    }
    DistinctSize(sorted);
  }

  lemma {:induction false} FirstOfSorted(s: State, now: int, limit: nat, sorted: seq<string>, ids: seq<string>)
    requires IsSorted(sorted, Retryable(s, now), s) && ids == if |sorted| < limit then sorted else sorted[..limit]
    ensures IsRetryList(ids, s, now, limit)
  {
    InOrderIsStrict(s);
    forall i, j | 0 <= i < j < |sorted| ensures sorted[i] != sorted[j] && !Earlier(s, sorted[j], sorted[i]) {
      assert InOrder(s)(sorted[i], sorted[j]) && !InOrder(s)(sorted[i], sorted[i]);
    }
    forall i | 0 <= i < |ids| ensures ids[i] in Retryable(s, now) {
      assert ids[i] == sorted[i] && sorted[i] in Elements(sorted);
    }
    forall id, i | id in Retryable(s, now) && id !in ids && 0 <= i < |ids| ensures NotAfter(s.deliveries[ids[i]], s.deliveries[id]) {
      assert id in Elements(sorted);
      var k :| 0 <= k < |sorted| && sorted[k] == id;
      assert forall n :: 0 <= n < |ids| ==> ids[n] == sorted[n];
      assert k >= |ids|;
    }
  }

  // ---------------------------------------------------------------- the service and its store

  datatype Result =
    Done(duplicate: bool, enqueued: bool) | NotFound | NotAllowed | InvalidPayload | CallFailed(message: string)

  class Webhooks {
    var deliveries: map<string, Delivery>
    var jobs: seq<string>

    constructor ()
      ensures deliveries == map[] && jobs == []
    {
      deliveries, jobs := map[], [];
    }

    function Contents(): State
      reads this
    {
      State(deliveries, jobs)
    }

    /** The job is created first; a taken delivery id rolls it back. */
    method EnqueueWebhookSync(id: string, kind: Kind, hasRepository: bool, enqueueJob: bool, at: int) returns (duplicate: bool)
      modifies this
      ensures Contents() == Inserted(old(Contents()), id, kind, hasRepository, enqueueJob, at)
      ensures duplicate == (id in old(deliveries))
    {
      var before := jobs;
      var syncJob, status := None, Ignored;
      if enqueueJob && hasRepository {
        syncJob, status := Some(|jobs|), Enqueued;
        jobs := jobs + [id];
      }
      if id in deliveries {
        jobs := before;
        return true;
      }
      deliveries := deliveries[id := Delivery(kind, hasRepository, syncJob, status, !enqueueJob, 0, None, None,
                                              if status == Ignored then Some(at) else None, at)];
      return false;
    }

    method MarkDeliveryStatus(id: string, status: Status, message: Option<string>, at: int) returns (found: bool)
      modifies this`deliveries
      ensures found == (id in old(deliveries))
      ensures deliveries == if found then old(deliveries)[id := Marked(old(deliveries)[id], status, message, at)] else old(deliveries)
    {
      if id !in deliveries { return false; }
      deliveries := deliveries[id := Marked(deliveries[id], status, message, at)];
      return true;
    }

    method ScheduleRetryFailure(id: string, retryCount: int, message: string, at: int)
      requires id in deliveries
      modifies this`deliveries
      ensures deliveries == old(deliveries)[id := FailureRecorded(old(deliveries)[id], retryCount, message, at)]
    {
      var attempt := retryCount + 1;
      if attempt >= MAX_RETRIES {
        var _ := MarkDeliveryStatus(id, DeadLetter, Some(message), at);
      } else {
        var delay := RetryDelayForAttempt(attempt);
        deliveries := deliveries[id := Scheduled(deliveries[id], message, attempt, at, at + delay)];
      }
    }

    method ProcessPersistedDelivery(id: string, kind: Kind, c: Calls, at: int) returns (error: Option<string>)
      requires id in deliveries && deliveries[id].kind == kind
      modifies this`deliveries
      ensures error == if kind.Installation? && c.handled then c.handler else None
      ensures deliveries == if error.Some? then old(deliveries)
                            else old(deliveries)[id := ProcessedRow(old(deliveries)[id], c.handled, at)]
    {
      error := None;
      if kind.Installation? && c.handled {
        if c.handler.Some? { return c.handler; }
        var _ := MarkDeliveryStatus(id, Processed, None, at);
      } else if !kind.Supported? {
        var _ := MarkDeliveryStatus(id, Ignored, None, at);
      }
    }

    method Handle(id: string, kind: Kind, hasRepository: bool, c: Calls, at: int) returns (r: Result)
      modifies this
      ensures Contents() == HandledState(old(Contents()), id, kind, hasRepository, c, at)
      ensures r.InvalidPayload? <==> !c.parses
      ensures c.parses ==>
              if id in old(deliveries) then r == Done(true, false) && jobs == old(jobs)
              else r == match CallError(Inserted(old(Contents()), id, kind, hasRepository, WantsJob(kind, hasRepository), at).deliveries[id], c)
                        case Some(message) => CallFailed(message)
                        case None => Done(false, |jobs| > |old(jobs)|)
    {
      if !c.parses { return InvalidPayload; }
      var enqueueJob := kind.Supported? && hasRepository;
      var duplicate := EnqueueWebhookSync(id, kind, hasRepository, enqueueJob, at);
      if !duplicate {
        if hasRepository && kind.Supported? && c.projection.Some? {
          ScheduleRetryFailure(id, 0, c.projection.value, at);
          return CallFailed(c.projection.value);
        }
        var error := ProcessPersistedDelivery(id, kind, c, at);
        if error.Some? {
          ScheduleRetryFailure(id, 0, error.value, at);
          return CallFailed(error.value);
        }
      }
      return Done(duplicate, enqueueJob && !duplicate);
    }

    method Retry(id: string, c: Calls, at: int) returns (r: Result)
      modifies this`deliveries
      ensures Contents() == RetriedState(old(Contents()), id, c, at)
      ensures r.NotFound? <==> id !in old(deliveries)
      ensures r.NotAllowed? <==> id in old(deliveries) && !old(deliveries)[id].status.Failed?
      ensures r.InvalidPayload? <==> id in old(deliveries) && old(deliveries)[id].status.Failed? && !RetryParses(old(deliveries)[id], c)
      ensures r.Done? ==> r == Done(false, old(deliveries)[id].syncJob.Some?)
      ensures r.CallFailed? <==> CountedFailure(old(Contents()), RetryOf(id, c, at), id)
    {
      if id !in deliveries { return NotFound; }
      var stored := deliveries[id];
      if stored.status != Failed { return NotAllowed; }
      if stored.hasRepository && stored.kind.Supported? {
        if !c.parses { return InvalidPayload; }
        if c.projection.Some? {
          ScheduleRetryFailure(id, stored.retryCount, c.projection.value, at);
          return CallFailed(c.projection.value);
        }
      }
      var error := ProcessPersistedDelivery(id, stored.kind, c, at);
      if error.Some? {
        ScheduleRetryFailure(id, stored.retryCount, error.value, at);
        return CallFailed(error.value);
      }
      var _ := MarkDeliveryStatus(id, DerivedStatus(stored.kind, stored.syncJob.Some?), None, at);
      return Done(false, stored.syncJob.Some?);
    }

    method ListRetryableDeliveryIDs(limit: nat, now: int) returns (ids: seq<string>)
      ensures IsRetryList(ids, Contents(), now, limit)
    {
      var found := Entries(map id | id in Retryable(Contents(), now) :: true);
      var unsorted := seq(|found|, i requires 0 <= i < |found| => found[i].0);
      var sorted := Sort(unsorted, InOrder(Contents()));
      ids := if |sorted| < limit then sorted else sorted[..limit];
      SortedIsSorted(Contents(), Retryable(Contents(), now), found, unsorted);
      FirstOfSorted(Contents(), now, limit, sorted, ids);
    }
  }

  // ---------------------------------------------------------------- what every row keeps, under any interleaving

  predicate GoodRow(d: Delivery) {
    (d.status.Failed? <==> d.nextRetryAt.Some?) &&
    (d.status.Failed? <==> d.errorMessage.Some?) &&
    (d.status.Failed? ==> 1 <= d.retryCount < MAX_RETRIES && !d.processed &&
                          d.processedAt.Some? && d.nextRetryAt == Some(d.processedAt.value + RetryDelay(d.retryCount))) &&
    0 <= d.retryCount < MAX_RETRIES &&
    (d.status.Processed? || d.status.Ignored? ==> d.processed) &&
    (d.status.Enqueued? ==> !d.processed) &&
    (d.syncJob.Some? <==> d.kind.Supported? && d.hasRepository) &&
    (d.kind.Supported? ==> if d.syncJob.Some? then !d.status.Processed? && !d.status.Ignored? && !d.processed else d.status.Ignored?) &&
    (d.status.Enqueued? ==> d.kind.Supported?)
  }

  predicate Owned(s: State) {
    (forall i :: 0 <= i < |s.jobs| ==> s.jobs[i] in s.deliveries && s.deliveries[s.jobs[i]].syncJob == Some(i)) &&
    (forall id :: id in s.deliveries && s.deliveries[id].syncJob.Some? ==>
       s.deliveries[id].syncJob.value < |s.jobs| && s.jobs[s.deliveries[id].syncJob.value] == id)
  }

  predicate Good(s: State) {
    (forall id :: id in s.deliveries ==> GoodRow(s.deliveries[id])) && Owned(s)
  }

  /** Each delivery owns at most one sync job. */
  lemma {:induction false} OneJobEach(s: State, i: nat, j: nat)
    requires Good(s) && i < |s.jobs| && j < |s.jobs| && s.jobs[i] == s.jobs[j]
    ensures i == j
  {
    assert s.deliveries[s.jobs[i]].syncJob == Some(i);
  }

  lemma {:induction false} InsertKeepsGood(s: State, id: string, kind: Kind, hasRepository: bool, at: int)
    requires Good(s)
    ensures Good(Inserted(s, id, kind, hasRepository, WantsJob(kind, hasRepository), at))
  {
    var s' := Inserted(s, id, kind, hasRepository, WantsJob(kind, hasRepository), at);
    if id !in s.deliveries {
      forall i | 0 <= i < |s'.jobs|
        ensures s'.jobs[i] in s'.deliveries && s'.deliveries[s'.jobs[i]].syncJob == Some(i)
      {
        if i < |s.jobs| { assert s.jobs[i] in s.deliveries; }
      }
    }
  }

  lemma {:induction false} RowUpdateKeepsGood(s: State, id: string, d: Delivery)
    requires Good(s) && id in s.deliveries && GoodRow(d) && d.syncJob == s.deliveries[id].syncJob
    ensures Good(s.(deliveries := s.deliveries[id := d]))
  {
  }

  // ---------------------------------------------------------------- atomic steps

  function Next(s: State, step: Step): State {
    match step
    case Deliver(id, kind, hasRepository, c, at) => HandledState(s, id, kind, hasRepository, c, at)
    case RetryOf(id, c, at) => RetriedState(s, id, c, at)
  }

  function RunOf(steps: seq<Step>): State {
    if steps == [] then State(map[], []) else Next(RunOf(steps[..|steps| - 1]), steps[|steps| - 1])
  }

  function Failures(steps: seq<Step>, id: string): nat {
    if steps == [] then 0
    else
      var init := steps[..|steps| - 1];
      Failures(init, id) + if CountedFailure(RunOf(init), steps[|steps| - 1], id) then 1 else 0
  }

  lemma {:induction false} HandledRowIsGood(d: Delivery, c: Calls, at: int)
    requires GoodRow(d)
    ensures GoodRow(HandledRow(d, c, at)) && HandledRow(d, c, at).syncJob == d.syncJob
  {
  }

  lemma {:induction false} RetriedRowIsGood(d: Delivery, c: Calls, at: int)
    requires GoodRow(d)
    ensures GoodRow(RetriedRow(d, c, at)) && RetriedRow(d, c, at).syncJob == d.syncJob
  {
  }

  lemma {:induction false} StepKeepsGood(s: State, step: Step)
    requires Good(s)
    ensures Good(Next(s, step))
  {
    match step
    case Deliver(id, kind, hasRepository, c, at) =>
      if c.parses && id !in s.deliveries {
        InsertKeepsGood(s, id, kind, hasRepository, at);
        var inserted := Inserted(s, id, kind, hasRepository, WantsJob(kind, hasRepository), at);
        HandledRowIsGood(inserted.deliveries[id], c, at);
        RowUpdateKeepsGood(inserted, id, HandledRow(inserted.deliveries[id], c, at));
      }
    case RetryOf(id, c, at) =>
      if id in s.deliveries && s.deliveries[id].status.Failed? && RetryParses(s.deliveries[id], c) {
        RetriedRowIsGood(s.deliveries[id], c, at);
        RowUpdateKeepsGood(s, id, RetriedRow(s.deliveries[id], c, at));
      }
  }

  predicate Counts(s: State, id: string, failures: nat) {
    if id !in s.deliveries then failures == 0
    else
      var d := s.deliveries[id];
      (d.processed <==> d.status.Processed? || d.status.Ignored?) &&
      (d.status.DeadLetter? <==> failures == MAX_RETRIES) &&
      (!d.status.DeadLetter? ==> failures == d.retryCount)
  }

  /** In every run of atomic deliveries and retries: the rows are good, a delivery is processed exactly when its status
      is processed or ignored, retry_count counts its failures, and the fifth failure, no other, makes it a dead letter. */
  lemma {:induction false} EveryRun(steps: seq<Step>, id: string)
    ensures Good(RunOf(steps)) && Counts(RunOf(steps), id, Failures(steps, id))
  {
    if steps != [] {
      var init, step := steps[..|steps| - 1], steps[|steps| - 1];
      EveryRun(init, id);
      StepKeepsGood(RunOf(init), step);
      if step.Deliver? {
        CountsAfterDeliver(RunOf(init), step, id, Failures(init, id));
      } else {
        CountsAfterRetry(RunOf(init), step, id, Failures(init, id));
      }
    }
  }

  lemma {:induction false} CountsAfterDeliver(s: State, step: Step, id: string, failures: nat)
    requires step.Deliver? && Counts(s, id, failures)
    ensures Counts(Next(s, step), id, failures + if CountedFailure(s, step, id) then 1 else 0)
  {
  }

  lemma {:induction false} CountsAfterRetry(s: State, step: Step, id: string, failures: nat)
    requires step.RetryOf? && Good(s) && Counts(s, id, failures)
    ensures Counts(Next(s, step), id, failures + if CountedFailure(s, step, id) then 1 else 0)
  {
    if step.id in s.deliveries { assert GoodRow(s.deliveries[step.id]); }
  }

  /** The delay before the n-th retry, in seconds. */
  lemma {:induction false} DelayIs(n: int)
    ensures RetryDelay(n) == if n <= 1 then 30 else if n == 2 then 60 else if n == 3 then 120 else if n == 4 then 240
                             else if n == 5 then 480 else 900
  {
    if n > 6 { Pow2Grows(5, n - 1); }
    assert Pow2(1) == 2 && Pow2(2) == 4 && Pow2(3) == 8 && Pow2(4) == 16 && Pow2(5) == 32;
  }

  /** The row fields that say what has become of a delivery. */
  predicate IsRow(d: Delivery, status: Status, processed: bool, retryCount: int, message: Option<string>, next: Option<int>, at: Option<int>) {
    d.status == status && d.processed == processed && d.retryCount == retryCount && d.errorMessage == message &&
    d.nextRetryAt == next && d.processedAt == at
  }

  /** What Handle makes of a new delivery: a supported event of a known repository is enqueued, one an installation handler has
      accepted is processed, everything else is ignored, and an error is retried in 30 seconds. */
  lemma {:induction false} NewDeliveryBecomes(s: State, id: string, kind: Kind, hasRepository: bool, c: Calls, at: int)
    requires c.parses && id !in s.deliveries
    ensures var s' := HandledState(s, id, kind, hasRepository, c, at);
            id in s'.deliveries && s'.deliveries - {id} == s.deliveries &&
            var d := s'.deliveries[id];
            d.kind == kind && d.hasRepository == hasRepository && d.receivedAt == at &&
            match kind
            case Supported =>
              if !hasRepository then s'.jobs == s.jobs && d.syncJob == None && IsRow(d, Ignored, true, 0, None, None, Some(at))
              else s'.jobs == s.jobs + [id] && d.syncJob == Some(|s.jobs|) &&
                   if c.projection.None? then IsRow(d, Enqueued, false, 0, None, None, None)
                   else IsRow(d, Failed, false, 1, c.projection, Some(at + 30), Some(at))
            case Installation =>
              s'.jobs == s.jobs && d.syncJob == None &&
              if !c.handled then IsRow(d, Ignored, true, 0, None, None, Some(at))
              else if c.handler.None? then IsRow(d, Processed, true, 0, None, None, Some(at))
              else IsRow(d, Failed, false, 1, c.handler, Some(at + 30), Some(at))
            case Other =>
              s'.jobs == s.jobs && d.syncJob == None && IsRow(d, Ignored, true, 0, None, None, Some(at))
  {
    DelayIs(1);
  }

  /** The error a retry of this delivery meets. */
  function ErrorOf(d: Delivery, c: Calls): Option<string> {
    match d.kind
    case Supported => if d.hasRepository then c.projection else None
    case Installation => if c.handled then c.handler else None
    case Other => None
  }

  /** What a retry makes of a failed delivery: back to enqueued if it has a job, processed if it is an installation event; and on
      an error it waits longer, or is given up at the fifth. */
  lemma {:induction false} FailedDeliveryBecomes(s: State, id: string, c: Calls, at: int)
    requires Good(s) && id in s.deliveries && s.deliveries[id].status.Failed?
    requires s.deliveries[id].kind.Supported? && s.deliveries[id].hasRepository ==> c.parses
    ensures var s', d := RetriedState(s, id, c, at), s.deliveries[id];
            s'.jobs == s.jobs && id in s'.deliveries && s'.deliveries - {id} == s.deliveries - {id} &&
            var d', n := s'.deliveries[id], d.retryCount;
            d'.kind == d.kind && d'.hasRepository == d.hasRepository && d'.syncJob == d.syncJob && d'.receivedAt == d.receivedAt &&
            match ErrorOf(d, c)
            case Some(message) =>
              if n >= 4 then IsRow(d', DeadLetter, d.processed, n, None, None, Some(at))
              else IsRow(d', Failed, false, n + 1, Some(message), Some(at + if n == 1 then 60 else if n == 2 then 120 else 240), Some(at))
            case None =>
              if d.kind.Supported? then IsRow(d', Enqueued, false, n, None, None, Some(at))
              else IsRow(d', if d.kind.Installation? then Processed else Ignored, true, n, None, None, Some(at))
  {
    assert GoodRow(s.deliveries[id]);
    DelayIs(s.deliveries[id].retryCount + 1);
  }

  /** Only installation events are ever processed or fail without a job, and events nobody asked for are always ignored. */
  predicate StatusFits(d: Delivery) {
    match d.kind
    case Supported => if d.hasRepository then d.status.Enqueued? || d.status.Failed? || d.status.DeadLetter? else d.status.Ignored?
    case Installation => !d.status.Enqueued?
    case Other => d.status.Ignored?
  }

  lemma {:induction false} StepKeepsFit(s: State, step: Step, id: string)
    requires Good(s) && (id in s.deliveries ==> StatusFits(s.deliveries[id])) && id in Next(s, step).deliveries
    ensures StatusFits(Next(s, step).deliveries[id])
  {
    match step
    case Deliver(other, kind, hasRepository, c, at) =>
      if c.parses && other !in s.deliveries { NewDeliveryBecomes(s, other, kind, hasRepository, c, at); }
    case RetryOf(other, c, at) =>
      if other in s.deliveries && s.deliveries[other].status.Failed? && RetryParses(s.deliveries[other], c) {
        FailedDeliveryBecomes(s, other, c, at);
      }
  }

  /** In every run of atomic steps the status fits the kind of event. */
  lemma {:induction false} EveryStatusFits(steps: seq<Step>, id: string)
    requires id in RunOf(steps).deliveries
    ensures StatusFits(RunOf(steps).deliveries[id])
  {
    var init := RunOf(steps[..|steps| - 1]);
    if id in init.deliveries { EveryStatusFits(steps[..|steps| - 1], id); }
    EveryRun(steps[..|steps| - 1], id);
    StepKeepsFit(init, steps[|steps| - 1], id);
  }

  /** A dead letter stays one, and a redelivery changes nothing at all. */
  lemma {:induction false} DeadLetterStays(s: State, step: Step, id: string)
    requires id in s.deliveries && s.deliveries[id].status.DeadLetter?
    ensures id in Next(s, step).deliveries && Next(s, step).deliveries[id] == s.deliveries[id]
    ensures step.Deliver? && step.id in s.deliveries ==> Next(s, step) == s
  {
  }

  /** The listing finds exactly the failed deliveries whose delay has passed; its other conditions exclude nothing. */
  lemma {:induction false} RetryableIff(s: State, now: int, id: string)
    requires Good(s)
    ensures id in Retryable(s, now) <==>
            id in s.deliveries && s.deliveries[id].status.Failed? &&
            s.deliveries[id].processedAt.value + RetryDelay(s.deliveries[id].retryCount) <= now
  {
    if id in s.deliveries { assert GoodRow(s.deliveries[id]); }
  }

  // ---------------------------------------------------------------- interleaved requests

  /** A Handle or Retry between two of its database calls, with the retry count it has read (0 for Handle). */
  datatype Request = Request(id: string, retrying: bool, retryCount: int)

  datatype World = World(rows: State, pending: map<nat, Request>)

  datatype Call =
    | Receive(id: string, kind: Kind, hasRepository: bool, at: int)   // Handle's transaction
    | Read(id: string)                                                // Retry's GetStoredDelivery
    | Process(handled: bool, at: int)                                 // processPersistedDelivery's write
    | Fail(message: string, at: int)                                  // scheduleRetryFailure's write, the last of the request
    | Finish(at: int)                                                 // the last write of a successful request
    | Drop                                                            // the request dies

  /** Nothing can fail for a repository event without an active repository. */
  predicate CanFail(d: Delivery) {
    d.kind.Supported? ==> d.hasRepository
  }

  function RowAfter(d: Delivery, q: Request, c: Call): Delivery {
    match c
    case Process(handled, at) => ProcessedRow(d, handled, at)
    case Fail(message, at) => if CanFail(d) then FailureRecorded(d, q.retryCount, message, at) else d
    case Finish(at) => if q.retrying then Marked(d, DerivedStatus(d.kind, d.syncJob.Some?), None, at) else d
    case _ => d
  }

  function Called(w: World, r: nat, c: Call): World {
    match c
    case Receive(id, kind, hasRepository, at) =>
      if r in w.pending || id in w.rows.deliveries then w
      else World(Inserted(w.rows, id, kind, hasRepository, WantsJob(kind, hasRepository), at), w.pending[r := Request(id, false, 0)])
    case Read(id) =>
      if r in w.pending || id !in w.rows.deliveries || !w.rows.deliveries[id].status.Failed? then w
      else w.(pending := w.pending[r := Request(id, true, w.rows.deliveries[id].retryCount)])
    case _ =>
      if r !in w.pending || w.pending[r].id !in w.rows.deliveries then w
      else
        var q := w.pending[r];
        World(w.rows.(deliveries := w.rows.deliveries[q.id := RowAfter(w.rows.deliveries[q.id], q, c)]),
              if c.Process? then w.pending else w.pending - {r})
  }

  predicate GoodWorld(w: World) {
    Good(w.rows) &&
    forall r :: r in w.pending ==> w.pending[r].id in w.rows.deliveries && 0 <= w.pending[r].retryCount < MAX_RETRIES &&
                                   (w.pending[r].retrying ==> CanFail(w.rows.deliveries[w.pending[r].id]))
  }

  /** Whatever requests interleave, and wherever they die: failed means a next retry time after one to four failures,
      and no delivery owns a second job. */
  lemma {:induction false} EveryCallKeepsGood(w: World, r: nat, c: Call)
    requires GoodWorld(w)
    ensures GoodWorld(Called(w, r, c))
  {
    if c.Receive? {
      InsertKeepsGood(w.rows, c.id, c.kind, c.hasRepository, c.at);
    } else if c.Read? {
      if c.id in w.rows.deliveries { assert GoodRow(w.rows.deliveries[c.id]); }
    } else if r in w.pending {
      var q := w.pending[r];
      var d := w.rows.deliveries[q.id];
      RowStaysGood(d, q, c);
      RowUpdateKeepsGood(w.rows, q.id, RowAfter(d, q, c));
    }
  }

  lemma {:induction false} RowStaysGood(d: Delivery, q: Request, c: Call)
    requires GoodRow(d) && 0 <= q.retryCount < MAX_RETRIES && (q.retrying ==> CanFail(d))
    ensures var d' := RowAfter(d, q, c); GoodRow(d') && d'.syncJob == d.syncJob && (CanFail(d) <==> CanFail(d'))
  {
  }

  /** A Handle that nobody interferes with is one atomic step. */
  lemma {:induction false} UndisturbedHandle(w: World, r: nat, id: string, kind: Kind, hasRepository: bool, c: Calls, at: int)
    requires r !in w.pending && id !in w.rows.deliveries && c.parses
    ensures var received := Called(w, r, Receive(id, kind, hasRepository, at));
            var error := CallError(received.rows.deliveries[id], c);
            var done := if error.Some? then Called(received, r, Fail(error.value, at))
                        else Called(Called(received, r, Process(c.handled, at)), r, Finish(at));
            done == World(HandledState(w.rows, id, kind, hasRepository, c, at), w.pending)
  {
  }

  /** And so is a Retry. */
  lemma {:induction false} UndisturbedRetry(w: World, r: nat, id: string, c: Calls, at: int)
    requires r !in w.pending && id in w.rows.deliveries && w.rows.deliveries[id].status.Failed? && RetryParses(w.rows.deliveries[id], c)
    ensures var read := Called(w, r, Read(id));
            var error := CallError(w.rows.deliveries[id], c);
            var done := if error.Some? then Called(read, r, Fail(error.value, at))
                        else Called(Called(read, r, Process(c.handled, at)), r, Finish(at));
            done == World(RetriedState(w.rows, id, c, at), w.pending)
  {
  }

  predicate IsDead(w: World, id: string) {
    id in w.rows.deliveries && w.rows.deliveries[id].status.DeadLetter?
  }

  /** A dead letter is revived exactly by a request that was already under way when it died: one that records success,
      or a failure after fewer than four it knows of. */
  lemma {:induction false} RevivesIff(w: World, r: nat, c: Call, id: string)
    requires GoodWorld(w) && IsDead(w, id)
    ensures !IsDead(Called(w, r, c), id) <==>
            r in w.pending && w.pending[r].id == id &&
            ((c.Process? && !w.rows.deliveries[id].kind.Supported?) ||
             (c.Finish? && w.pending[r].retrying) ||
             (c.Fail? && w.pending[r].retryCount + 1 < MAX_RETRIES))
  {
    assert GoodRow(w.rows.deliveries[id]);
  }

  /** One request at a time per delivery, and none on a dead letter. */
  predicate Serial(w: World) {
    (forall r :: r in w.pending ==> !IsDead(w, w.pending[r].id)) &&
    (forall q, r :: q in w.pending && r in w.pending && w.pending[q].id == w.pending[r].id ==> q == r)
  }

  /** When no retry starts on a delivery that is being worked on, dead letters are never left. */
  lemma {:induction false} SerialKeepsDeadLetters(w: World, r: nat, c: Call, id: string)
    requires GoodWorld(w) && Serial(w)
    requires c.Read? ==> forall q :: q in w.pending ==> w.pending[q].id != c.id
    ensures Serial(Called(w, r, c)) && (IsDead(w, id) ==> IsDead(Called(w, r, c), id))
  {
    if IsDead(w, id) { RevivesIff(w, r, c, id); }
    StaysSerial(w, r, c);
  }

  lemma {:induction false} StaysSerial(w: World, r: nat, c: Call)
    requires GoodWorld(w) && Serial(w)
    requires c.Read? ==> forall q :: q in w.pending ==> w.pending[q].id != c.id
    ensures Serial(Called(w, r, c))
  {
    if c.Receive? || c.Read? { StaysSerialBegin(w, r, c); } else { StaysSerialWork(w, r, c); }
  }

  lemma {:induction false} StaysSerialBegin(w: World, r: nat, c: Call)
    requires GoodWorld(w) && Serial(w) && (c.Receive? || c.Read?)
    requires c.Read? ==> forall q :: q in w.pending ==> w.pending[q].id != c.id
    ensures Serial(Called(w, r, c))
  {
    var w' := Called(w, r, c);
    forall q | q in w'.pending ensures !IsDead(w', w'.pending[q].id) {
      if q in w.pending { assert !IsDead(w, w.pending[q].id); }
    }
  }

  lemma {:induction false} StaysSerialWork(w: World, r: nat, c: Call)
    requires GoodWorld(w) && Serial(w) && !c.Receive? && !c.Read?
    ensures Serial(Called(w, r, c))
  {
    var w' := Called(w, r, c);
    forall q | q in w'.pending ensures q in w.pending && w'.pending[q] == w.pending[q] && !IsDead(w', w'.pending[q].id) {
      assert !IsDead(w, w.pending[q].id);
      assert q != r && r in w.pending ==> w.pending[q].id != w.pending[r].id;
    }
  }

  /** Two retries that read the same delivery before its fifth failure: the first makes it a dead letter, the second
      brings it back. */
  lemma {:induction false} ConcurrentRetryRevives(w: World, id: string, message: string, at: int)
    requires GoodWorld(w) && w.pending == map[] && id in w.rows.deliveries
    requires w.rows.deliveries[id].status.Failed? && w.rows.deliveries[id].retryCount == MAX_RETRIES - 1
    ensures var w' := Called(Called(Called(w, 0, Read(id)), 1, Read(id)), 0, Fail(message, at));
            IsDead(w', id) && !IsDead(Called(w', 1, Finish(at)), id)
  {
    assert GoodRow(w.rows.deliveries[id]);
  }
}
