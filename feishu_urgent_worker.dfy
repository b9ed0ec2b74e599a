/** The escalation worker: on each wake-up it checks whether the recipient has read the
    message and, while the attempt budget lasts, issues an urgent notification and
    re-enqueues itself with an exponentially growing delay.

    `Decide` is the state machine of one wake-up, `Run` the whole wake-up as a function
    of the persisted work data and of what the platform answers, `WorkQueue` the job
    queue that `Schedule` appends to, and `DoWork` the wake-up as the worker runs it. */
module FeishuUrgentWorker {
  import opened Wrappers
  import opened FeishuAppApi

  // Defaults for missing work-data keys.
  const DefaultMaxAttempts: int := 3
  const DefaultAttemptIndex: int := 0
  const DefaultInitialDelaySeconds: int := 60

  const TagPrefix: string := "feishu_urgent_"

  /** The work data a queued request carries; any key may be missing. */
  datatype InputData = InputData(
    appId: Option<string>,
    userId: Option<string>,
    messageId: Option<string>,
    maxAttempts: Option<int>,
    attemptIndex: Option<int>,
    initialDelaySeconds: Option<int>)

  /** The state of one escalation chain, as a wake-up reads it from its work data.
      `attemptIndex` counts the urgent notifications that succeeded so far. */
  datatype Task = Task(
    appId: string,
    userId: string,
    messageId: string,
    maxAttempts: int,
    attemptIndex: int,
    initialDelaySeconds: int)

  /** The invariant of a chain started with `attemptIndex` 0 and a non-negative budget. */
  predicate WithinBudget(t: Task) {
    0 <= t.attemptIndex <= t.maxAttempts
  }

  /** A string key that is present and non-empty. */
  predicate Present(s: Option<string>) {
    s.Some? && s.value != ""
  }

  /** The task a wake-up works on: none when an id is missing or empty, and the
      defaults for missing numbers. */
  function ReadTask(data: InputData): (t: Option<Task>)
    ensures t.Some? <==> Present(data.appId) && Present(data.userId) && Present(data.messageId)
  {
    if !Present(data.appId) || !Present(data.userId) || !Present(data.messageId) then None
    else Some(Task(
      data.appId.value,
      data.userId.value,
      data.messageId.value,
      data.maxAttempts.GetOr(DefaultMaxAttempts),
      data.attemptIndex.GetOr(DefaultAttemptIndex),
      data.initialDelaySeconds.GetOr(DefaultInitialDelaySeconds)))
  }

  /** A valid task carries the ids of the work data, and each numeric key's value, or
      its own default when that key is missing: 3 attempts, attempt 0, 60 seconds. */
  lemma MissingNumbersDefault(data: InputData)
    requires ReadTask(data).Some?
    ensures ReadTask(data).value.appId == data.appId.value
    ensures ReadTask(data).value.userId == data.userId.value
    ensures ReadTask(data).value.messageId == data.messageId.value
    ensures data.maxAttempts.None? ==> ReadTask(data).value.maxAttempts == 3
    ensures data.maxAttempts.Some? ==> ReadTask(data).value.maxAttempts == data.maxAttempts.value
    ensures data.attemptIndex.None? ==> ReadTask(data).value.attemptIndex == 0
    ensures data.attemptIndex.Some? ==> ReadTask(data).value.attemptIndex == data.attemptIndex.value
    ensures data.initialDelaySeconds.None? ==> ReadTask(data).value.initialDelaySeconds == 60
    ensures data.initialDelaySeconds.Some? ==>
              ReadTask(data).value.initialDelaySeconds == data.initialDelaySeconds.value
  {
  }

  /** 2 to the power `n`. */
  function Pow2(n: nat): (p: nat)
    ensures p >= 1
  {
    if n == 0 then 1 else 2 * Pow2(n - 1)
  }

  lemma {:induction false} Pow2Monotone(m: nat, n: nat)
    requires m <= n
    ensures Pow2(m) <= Pow2(n)
  {
    if m < n {
      Pow2Monotone(m, n - 1);
    }
  }

  /** The backoff delay before the wake-up that finds the chain at `attemptIndex`. */
  function BackoffDelay(initialDelaySeconds: int, attemptIndex: nat): int {
    initialDelaySeconds * Pow2(attemptIndex)
  }

  /** What one wake-up decides. */
  datatype Decision =
    | StopRead                                           // the recipient has read the message
    | StopExhausted                                      // unread, and the budget is used up
    | Escalate(nextAttemptIndex: int, delaySeconds: int) // notified; re-arm with this state

  /** The read query confirmed that the recipient has read the message; a failed query
      confirms nothing. */
  predicate ConfirmedRead(task: Task, readUsers: Result<seq<string>, Error>) {
    readUsers.Success? && task.userId in readUsers.value
  }

  /** The escalation state machine: given the read-query result and the result the
      urgent notification would have, decides the wake-up's outcome. */
  function Decide(task: Task, readUsers: Result<seq<string>, Error>, notify: Result<(), Error>): (d: Decision)
    requires 0 <= task.attemptIndex
    ensures d == StopRead <==> ConfirmedRead(task, readUsers)
    ensures d == StopExhausted <==> !ConfirmedRead(task, readUsers) && task.attemptIndex >= task.maxAttempts
    ensures d.Escalate? ==>
              d.nextAttemptIndex == (if notify.Success? then task.attemptIndex + 1 else task.attemptIndex)
    ensures d.Escalate? ==> task.attemptIndex <= d.nextAttemptIndex <= task.maxAttempts
    ensures d.Escalate? ==> d.delaySeconds == task.initialDelaySeconds * Pow2(d.nextAttemptIndex)
  {
    if ConfirmedRead(task, readUsers) then StopRead
    else if task.attemptIndex >= task.maxAttempts then StopExhausted
    else
      var next := if notify.Success? then task.attemptIndex + 1 else task.attemptIndex;
      Escalate(next, BackoffDelay(task.initialDelaySeconds, next))
  }

  /** A failed read query is treated exactly like an answer in which the recipient is
      not among the readers. */
  lemma ReadFailureActsAsUnread(task: Task, e: Error, readers: seq<string>, notify: Result<(), Error>)
    requires 0 <= task.attemptIndex
    requires task.userId !in readers
    ensures Decide(task, Failure(e), notify) == Decide(task, Success(readers), notify)
  {
  }

  /** A failed notification does not consume the budget and re-arms with the delay that
      preceded this wake-up; a successful one moves to the next, doubled, delay. */
  lemma NotifyOutcomeBackoff(task: Task, readUsers: Result<seq<string>, Error>, e: Error)
    requires WithinBudget(task) && task.attemptIndex < task.maxAttempts
    requires !ConfirmedRead(task, readUsers)
    ensures Decide(task, readUsers, Failure(e))
            == Escalate(task.attemptIndex, BackoffDelay(task.initialDelaySeconds, task.attemptIndex))
    ensures Decide(task, readUsers, Success(()))
            == Escalate(task.attemptIndex + 1, 2 * BackoffDelay(task.initialDelaySeconds, task.attemptIndex))
  {
  }

  /** What the platform answers on one wake-up. */
  datatype Answers = Answers(readUsers: Result<seq<string>, Error>, notify: Result<(), Error>)

  /** The number of successful notifications along a chain that starts at `task` and
      meets `answers` on its successive wake-ups (it stops at the first terminal outcome). */
  function ChainNotifications(task: Task, answers: seq<Answers>): nat
    requires 0 <= task.attemptIndex
    decreases |answers|
  {
    if answers == [] then 0
    else match Decide(task, answers[0].readUsers, answers[0].notify)
      case Escalate(next, _) =>
        (if answers[0].notify.Success? then 1 else 0)
        + ChainNotifications(task.(attemptIndex := next), answers[1..])
      case _ => 0
  }

  /** Bounded attempts: however the platform answers, and however many times the chain
      wakes up, it notifies successfully at most `maxAttempts - attemptIndex` times. */
  lemma {:induction false} ChainNotificationsBounded(task: Task, answers: seq<Answers>)
    requires WithinBudget(task)
    ensures ChainNotifications(task, answers) <= task.maxAttempts - task.attemptIndex
    decreases |answers|
  {
    if answers != [] {
      var d := Decide(task, answers[0].readUsers, answers[0].notify);
      if d.Escalate? {
        ChainNotificationsBounded(task.(attemptIndex := d.nextAttemptIndex), answers[1..]);
      }
    }
  }

  /** The delays of the successive re-arms along a chain that starts at `task` and
      meets `answers` (it stops at the first terminal outcome). */
  function ChainDelays(task: Task, answers: seq<Answers>): seq<int>
    requires 0 <= task.attemptIndex
    decreases |answers|
  {
    if answers == [] then []
    else match Decide(task, answers[0].readUsers, answers[0].notify)
      case Escalate(next, delay) => [delay] + ChainDelays(task.(attemptIndex := next), answers[1..])
      case _ => []
  }

  /** Backoff never shrinks along a chain (for a non-negative base delay): every re-arm
      waits at least the backoff for the attempt index the chain started at, and at
      least as long as every earlier re-arm. */
  lemma {:induction false} ChainBackoffNondecreasing(task: Task, answers: seq<Answers>)
    requires 0 <= task.attemptIndex && 0 <= task.initialDelaySeconds
    ensures forall k :: 0 <= k < |ChainDelays(task, answers)| ==>
              ChainDelays(task, answers)[k] >= BackoffDelay(task.initialDelaySeconds, task.attemptIndex)
    ensures forall k, l :: 0 <= k < l < |ChainDelays(task, answers)| ==>
              ChainDelays(task, answers)[k] <= ChainDelays(task, answers)[l]
    decreases |answers|
  {
    if answers != [] {
      var d := Decide(task, answers[0].readUsers, answers[0].notify);
      if d.Escalate? {
        var rest := task.(attemptIndex := d.nextAttemptIndex);
        ChainBackoffNondecreasing(rest, answers[1..]);
        Pow2Monotone(task.attemptIndex, d.nextAttemptIndex);
        assert task.initialDelaySeconds * Pow2(task.attemptIndex)
            <= task.initialDelaySeconds * Pow2(d.nextAttemptIndex);
        assert ChainDelays(task, answers) == [d.delaySeconds] + ChainDelays(rest, answers[1..]);
      }
    }
  }

  /** The host's verdict on one run of the worker. */
  datatype WorkResult = WorkSuccess | WorkFailure | WorkRetry

  /** A queued one-shot request: its work data, initial delay and tag. */
  datatype WorkRequest = WorkRequest(data: InputData, delaySeconds: int, tag: string)

  /** The tag every request of one message's chain carries. */
  function UrgentTag(messageId: string): string {
    TagPrefix + messageId
  }

  /** The request `schedule` builds. Reading its work data back gives exactly the task
      it was built from, or nothing when an id is empty. */
  function NewRequest(
    appId: string, userId: string, messageId: string,
    maxAttempts: int, initialDelaySeconds: int, attemptIndex: int, delaySeconds: int): (r: WorkRequest)
    ensures ReadTask(r.data)
            == if appId != "" && userId != "" && messageId != ""
               then Some(Task(appId, userId, messageId, maxAttempts, attemptIndex, initialDelaySeconds))
               else None
    ensures r.delaySeconds == delaySeconds
    ensures r.tag == TagPrefix + messageId
  {
    var data := InputData(
      Some(appId), Some(userId), Some(messageId),
      Some(maxAttempts), Some(attemptIndex), Some(initialDelaySeconds));
    WorkRequest(data, delaySeconds, UrgentTag(messageId))
  }

  /** The job queue: the requests enqueued so far. Plain `enqueue` with a tag: requests
      with the same tag accumulate, none is replaced. */
  class WorkQueue {
    var pending: seq<WorkRequest>

    constructor ()
      ensures pending == []
    {
      pending := [];
    }

    /** `schedule`: enqueue one request; the first request of a chain starts at attempt 0
        and waits the base delay. */
    method Schedule(
      appId: string, userId: string, messageId: string,
      maxAttempts: int, initialDelaySeconds: int,
      attemptIndex: int := 0, delaySeconds: int := initialDelaySeconds)
      modifies this
      ensures pending
              == old(pending) + [NewRequest(appId, userId, messageId, maxAttempts, initialDelaySeconds, attemptIndex, delaySeconds)]
    {
      var request := NewRequest(appId, userId, messageId, maxAttempts, initialDelaySeconds, attemptIndex, delaySeconds);
      pending := pending + [request];
    }
  }

  /** Starting a chain with `schedule`'s defaults. */
  method StartChain(queue: WorkQueue, appId: string, userId: string, messageId: string, maxAttempts: int, initialDelaySeconds: int)
    modifies queue
    ensures queue.pending
            == old(queue.pending) + [NewRequest(appId, userId, messageId, maxAttempts, initialDelaySeconds, 0, initialDelaySeconds)]
  {
    queue.Schedule(appId, userId, messageId, maxAttempts, initialDelaySeconds);
  }

  /** A request is on schedule when its delay is the backoff for the attempt index it
      carries; the first request of a chain (attempt 0, the base delay) is. */
  predicate OnSchedule(r: WorkRequest) {
    match ReadTask(r.data)
    case None => true
    case Some(t) => 0 <= t.attemptIndex && r.delaySeconds == BackoffDelay(t.initialDelaySeconds, t.attemptIndex)
  }

  lemma FirstRequestOnSchedule(appId: string, userId: string, messageId: string, maxAttempts: int, initialDelaySeconds: int)
    ensures OnSchedule(NewRequest(appId, userId, messageId, maxAttempts, initialDelaySeconds, 0, initialDelaySeconds))
  {
  }

  /** Where an unexpected exception interrupts a wake-up, if anywhere. */
  datatype Fault = NoFault | ReadQueryThrows | NotifyThrows | EnqueueThrows

  /** One wake-up's environment: the replies the two platform calls get, and the fault. */
  datatype WakeUp = WakeUp(readReply: Response, urgentReply: Response, fault: Fault)

  /** A platform call the worker makes, with the application whose token it uses. */
  datatype ApiCall = ApiCall(appId: string, request: HttpRequest)

  /** What one wake-up does: the verdict, the platform calls in order, and the request
      it enqueues, if any. */
  datatype Effects = Effects(result: WorkResult, calls: seq<ApiCall>, enqueued: Option<WorkRequest>)

  /** `doWork` as a function of the work data and the environment. */
  function Run(data: InputData, w: WakeUp): (e: Effects)
    requires 0 <= data.attemptIndex.GetOr(DefaultAttemptIndex)
  {
    match ReadTask(data)
    case None => Effects(WorkFailure, [], None)
    case Some(t) =>
      var query := ApiCall(t.appId, ReadUsersRequest(t.messageId));
      if w.fault == ReadQueryThrows then Effects(WorkRetry, [query], None)
      else
        match Decide(t, ReadUsersOutcome(w.readReply), UrgentOutcome(w.urgentReply))
        case StopRead => Effects(WorkSuccess, [query], None)
        case StopExhausted => Effects(WorkSuccess, [query], None)
        case Escalate(next, delay) =>
          var calls := [query, ApiCall(t.appId, UrgentRequest(t.userId, t.messageId))];
          if w.fault == NotifyThrows || w.fault == EnqueueThrows then Effects(WorkRetry, calls, None)
          else Effects(WorkSuccess, calls, Some(NewRequest(t.appId, t.userId, t.messageId, t.maxAttempts, t.initialDelaySeconds, next, delay)))
  }

  /** Work data with a missing or empty id fails the run: no platform call, nothing enqueued. */
  lemma InvalidDataFails(data: InputData, w: WakeUp)
    requires 0 <= data.attemptIndex.GetOr(DefaultAttemptIndex)
    requires !Present(data.appId) || !Present(data.userId) || !Present(data.messageId)
    ensures Run(data, w) == Effects(WorkFailure, [], None)
  {
  }

  /** A read receipt from the recipient ends the chain, whatever the attempt index:
      only the read query is made and nothing is enqueued. */
  lemma ReadEndsChain(data: InputData, w: WakeUp)
    requires 0 <= data.attemptIndex.GetOr(DefaultAttemptIndex)
    requires ReadTask(data).Some? && w.fault != ReadQueryThrows
    requires ConfirmedRead(ReadTask(data).value, ReadUsersOutcome(w.readReply))
    ensures Run(data, w) == Effects(WorkSuccess, [ApiCall(data.appId.value, ReadUsersRequest(data.messageId.value))], None)
  {
  }

  /** With the budget used up and no read receipt, the run succeeds without notifying
      or enqueueing; in particular a budget of 0 never notifies. */
  lemma ExhaustedEndsChain(data: InputData, w: WakeUp)
    requires 0 <= data.attemptIndex.GetOr(DefaultAttemptIndex)
    requires ReadTask(data).Some? && w.fault != ReadQueryThrows
    requires ReadTask(data).value.attemptIndex >= ReadTask(data).value.maxAttempts
    ensures Run(data, w).result == WorkSuccess
    ensures Run(data, w).enqueued.None?
    ensures Run(data, w).calls == [ApiCall(data.appId.value, ReadUsersRequest(data.messageId.value))]
  {
  }

  /** An unexpected exception makes the host retry the same request: nothing is
      enqueued. Conversely, a run enqueues only when it succeeds. */
  lemma FaultRetries(data: InputData, w: WakeUp)
    requires 0 <= data.attemptIndex.GetOr(DefaultAttemptIndex)
    ensures Run(data, w).enqueued.Some? ==> Run(data, w).result == WorkSuccess && w.fault == NoFault
    ensures Run(data, w).result == WorkRetry ==> Run(data, w).enqueued.None?
    ensures ReadTask(data).Some? && w.fault == ReadQueryThrows ==> Run(data, w).result == WorkRetry
    ensures |Run(data, w).calls| == 2 && (w.fault == NotifyThrows || w.fault == EnqueueThrows) ==>
              Run(data, w).result == WorkRetry
    ensures |Run(data, w).calls| == 2 && w.fault == NoFault ==>
              Run(data, w).result == WorkSuccess && Run(data, w).enqueued.Some?
  {
  }

  /** A run that notifies sends exactly one urgent request, to the task's recipient
      about the task's message, after the read query. */
  lemma NotifiesRecipientOnce(data: InputData, w: WakeUp)
    requires 0 <= data.attemptIndex.GetOr(DefaultAttemptIndex)
    ensures |Run(data, w).calls| <= 2
    ensures |Run(data, w).calls| == 2 ==>
              var t := ReadTask(data).value;
              Run(data, w).calls[0] == ApiCall(t.appId, ReadUsersRequest(t.messageId))
              && Run(data, w).calls[1].appId == t.appId
              && Run(data, w).calls[1].request.Patch?
              && Run(data, w).calls[1].request.userIdList == [t.userId]
              && MessageOfUrl(Run(data, w).calls[1].request.url, UrgentSuffix) == Some(t.messageId)
  {
  }

  /** Unread and within budget, a wake-up notifies: it makes the read query and the urgent
      call, and without a fault it succeeds and re-arms exactly one request for the same
      chain, at the next index after a successful notify and at the same index after a
      failed one, with the backoff delay for that index. */
  lemma UnreadEscalates(data: InputData, w: WakeUp)
    requires 0 <= data.attemptIndex.GetOr(DefaultAttemptIndex)
    requires ReadTask(data).Some? && w.fault != ReadQueryThrows
    requires !ConfirmedRead(ReadTask(data).value, ReadUsersOutcome(w.readReply))
    requires ReadTask(data).value.attemptIndex < ReadTask(data).value.maxAttempts
    ensures var t := ReadTask(data).value;
            Run(data, w).calls
            == [ApiCall(t.appId, ReadUsersRequest(t.messageId)), ApiCall(t.appId, UrgentRequest(t.userId, t.messageId))]
    ensures w.fault == NoFault ==>
              var t := ReadTask(data).value;
              var next := if UrgentOutcome(w.urgentReply).Success? then t.attemptIndex + 1 else t.attemptIndex;
              Run(data, w).result == WorkSuccess
              && Run(data, w).enqueued
                 == Some(NewRequest(t.appId, t.userId, t.messageId, t.maxAttempts, t.initialDelaySeconds,
                                    next, BackoffDelay(t.initialDelaySeconds, next)))
  {
  }

  /** The re-armed request carries the same chain, only the attempt index changed,
      tagged by the message, on schedule, and within the budget when the chain was. */
  lemma RearmKeepsChain(data: InputData, w: WakeUp)
    requires 0 <= data.attemptIndex.GetOr(DefaultAttemptIndex)
    requires Run(data, w).enqueued.Some?
    ensures ReadTask(data).Some?
    ensures var t := ReadTask(data).value;
            var r := Run(data, w).enqueued.value;
            && r.tag == UrgentTag(t.messageId)
            && ReadTask(r.data).Some?
            && ReadTask(r.data).value == t.(attemptIndex := ReadTask(r.data).value.attemptIndex)
            && ReadTask(r.data).value.attemptIndex
               == (if UrgentOutcome(w.urgentReply).Success? then t.attemptIndex + 1 else t.attemptIndex)
            && OnSchedule(r)
            && (WithinBudget(t) ==> WithinBudget(ReadTask(r.data).value))
  {
  }

  /** `doWork` as the worker runs it: validate, query, decide, notify, re-arm. */
  method DoWork(queue: WorkQueue, data: InputData, w: WakeUp) returns (result: WorkResult, calls: seq<ApiCall>)
    requires 0 <= data.attemptIndex.GetOr(DefaultAttemptIndex)
    modifies queue
    ensures result == Run(data, w).result && calls == Run(data, w).calls
    ensures queue.pending == old(queue.pending) + match Run(data, w).enqueued case Some(r) => [r] case None => []
  {
    var appId := data.appId;
    var userId := data.userId;
    var messageId := data.messageId;
    var maxAttempts := data.maxAttempts.GetOr(DefaultMaxAttempts);
    var attemptIndex := data.attemptIndex.GetOr(DefaultAttemptIndex);
    var initialDelay := data.initialDelaySeconds.GetOr(DefaultInitialDelaySeconds);

    if !Present(appId) || !Present(userId) || !Present(messageId) {
      return WorkFailure, [];
    }

    // 1. has the recipient read the message?
    calls := [ApiCall(appId.value, ReadUsersRequest(messageId.value))];
    if w.fault == ReadQueryThrows {
      return WorkRetry, calls;
    }
    var readUsers := OnReadUsersResponse(w.readReply);
    if readUsers.Success? {
      if userId.value in readUsers.value {
        return WorkSuccess, calls;
      }
    }

    // 2. unread: stop once the budget is used up
    if attemptIndex >= maxAttempts {
      return WorkSuccess, calls;
    }

    // 3. notify; only a success counts as an attempt
    calls := calls + [ApiCall(appId.value, UrgentRequest(userId.value, messageId.value))];
    if w.fault == NotifyThrows {
      return WorkRetry, calls;
    }
    var urgentResult := UrgentOutcome(w.urgentReply);
    var nextAttemptIndex := if urgentResult.Success? then attemptIndex + 1 else attemptIndex;

    // 4. exponential backoff, then re-arm
    var delaySeconds := initialDelay * Pow2(nextAttemptIndex);
    if w.fault == EnqueueThrows {
      return WorkRetry, calls;
    }
    queue.Schedule(
      appId.value, userId.value, messageId.value, maxAttempts, initialDelay,
      attemptIndex := nextAttemptIndex, delaySeconds := delaySeconds);
    return WorkSuccess, calls;
  }
}
