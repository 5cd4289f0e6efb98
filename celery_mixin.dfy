/**
 * The deadline-reminder scheduler (`CeleryTaskMixin` in common/mixins/celery_mixin.py).
 * It submits a reminder job to the work queue and remembers its handle in the job store under
 * the key `"task: {type}: {id}"`, so that the job can later be revoked or replaced when the
 * deadline moves. A failing store or queue call raises and ends the operation at that step.
 */
module CeleryMixin {
  import opened Wrappers
  import opened Uuids
  import opened Backend

  /** Lead time of the reminder: one hour, in seconds. */
  const OneHour: int := 3600

  /** The kinds of scheduled job; `SEND_MAIL` is the default of every operation. */
  datatype TaskTypeCelery = SendMail {
    function Value(): string {
      match this
      case SendMail => "send_mail"
    }
  }

  const KeyPrefix: string := "task: "
  const KeySeparator: string := ": "

  /** `f"task: {task_type.value}: {task_id}"`. */
  function RedisKey(taskType: TaskTypeCelery, taskId: Uuid): (k: string)
    ensures |k| == |KeyPrefix| + |taskType.Value()| + |KeySeparator| + 36
    ensures k[|k| - 36..] == Canonical(taskId)
    ensures k[..|k| - 36] == KeyPrefix + taskType.Value() + KeySeparator
  {
    var k := KeyPrefix + taskType.Value() + KeySeparator + Canonical(taskId);
    assert k[|k| - 36..] == Canonical(taskId);
    k
  }

  /** Keys of different jobs never collide: the key determines the job type and the entity. */
  lemma RedisKeyInjective(t1: TaskTypeCelery, id1: Uuid, t2: TaskTypeCelery, id2: Uuid)
    ensures RedisKey(t1, id1) == RedisKey(t2, id2) ==> t1 == t2 && id1 == id2
  {
    if RedisKey(t1, id1) == RedisKey(t2, id2) {
      CanonicalInjective(id1, id2);
    }
  }

  // ---------------------------------------------------------------- specification

  /** `schedule_task`: submit the job with args `[task_id]` at `eta`, then store its handle. */
  function ScheduleSpec(w: World, callable: Callable, taskId: Uuid, eta: int, taskType: TaskTypeCelery := SendMail)
    : (World, Result<Handle, Exc>)
  {
    var (w1, submitted) := Submit(w, Job(callable, [taskId], eta));
    if submitted.Err? then (w1, Err(submitted.error))
    else
      var (w2, stored) := StorePut(w1, RedisKey(taskType, taskId), submitted.value);
      if stored.Err? then (w2, Err(stored.error)) else (w2, Ok(submitted.value))
  }

  /** `revoke_task`: look the handle up; if there is one, revoke that job and drop the key. */
  function RevokeSpec(w: World, taskId: Uuid, taskType: TaskTypeCelery := SendMail): (World, Result<(), Exc>) {
    var key := RedisKey(taskType, taskId);
    var (w1, found) := StoreGet(w, key);
    if found.Err? then (w1, Err(found.error))
    else if found.value.None? then (w1, Ok(()))
    else
      var (w2, revoked) := Revoke(w1, found.value.value);
      if revoked.Err? then (w2, Err(revoked.error)) else StoreDelete(w2, key)
  }

  /** `reschedule_task`: nothing when the deadline is unchanged; otherwise revoke, then schedule
      one hour before the new deadline. */
  function RescheduleSpec(w: World, callable: Callable, taskId: Uuid, oldDeadline: int, newDeadline: int,
                          taskType: TaskTypeCelery := SendMail): (World, Result<Option<Handle>, Exc>)
  {
    if oldDeadline == newDeadline then (w, Ok(None))
    else
      var (w1, revoked) := RevokeSpec(w, taskId, taskType);
      if revoked.Err? then (w1, Err(revoked.error))
      else
        var (w2, scheduled) := ScheduleSpec(w1, callable, taskId, newDeadline - OneHour, taskType);
        if scheduled.Err? then (w2, Err(scheduled.error)) else (w2, Ok(Some(scheduled.value)))
  }

  // ---------------------------------------------------------------- operations

  method ScheduleTask(env: Env, callable: Callable, taskId: Uuid, eta: int, taskType: TaskTypeCelery := SendMail)
    returns (r: Result<Handle, Exc>)
    modifies env
    ensures (env.State(), r) == ScheduleSpec(old(env.State()), callable, taskId, eta, taskType)
  {
    var submitted := env.ApplyAsync(Job(callable, [taskId], eta));
    if submitted.Err? {
      return Err(submitted.error);
    }
    var stored := env.Set(RedisKey(taskType, taskId), submitted.value);
    if stored.Err? {
      return Err(stored.error);
    }
    r := Ok(submitted.value);
  }

  method RevokeTask(env: Env, taskId: Uuid, taskType: TaskTypeCelery := SendMail) returns (r: Result<(), Exc>)
    modifies env
    ensures (env.State(), r) == RevokeSpec(old(env.State()), taskId, taskType)
  {
    var key := RedisKey(taskType, taskId);
    var found := env.Get(key);
    if found.Err? {
      return Err(found.error);
    }
    if found.value.Some? {
      var revoked := env.RevokeJob(found.value.value);
      if revoked.Err? {
        return Err(revoked.error);
      }
      r := env.Delete(key);
    } else {
      r := Ok(());
    }
  }

  method RescheduleTask(env: Env, callable: Callable, taskId: Uuid, oldDeadline: int, newDeadline: int,
                        taskType: TaskTypeCelery := SendMail) returns (r: Result<Option<Handle>, Exc>)
    modifies env
    ensures (env.State(), r) == RescheduleSpec(old(env.State()), callable, taskId, oldDeadline, newDeadline, taskType)
  {
    if oldDeadline == newDeadline {
      return Ok(None);
    }
    var notificationTime := newDeadline - OneHour;
    var revoked := RevokeTask(env, taskId, taskType);
    if revoked.Err? {
      return Err(revoked.error);
    }
    var scheduled := ScheduleTask(env, callable, taskId, notificationTime, taskType);
    if scheduled.Err? {
      return Err(scheduled.error);
    }
    r := Ok(Some(scheduled.value));
  }

  // ---------------------------------------------------------------- properties

  predicate AllUp(w: World) {
    w.faults.storeUp && w.faults.queueUp
  }

  /** Scheduling submits exactly one job, for this entity at `eta`, under a fresh handle, stores
      that handle under the entity's key and returns it; nothing else changes. */
  lemma ScheduleStoresHandle(w: World, callable: Callable, taskId: Uuid, eta: int, taskType: TaskTypeCelery)
    requires AllUp(w) && HandlesIssued(w)
    ensures var (w', r) := ScheduleSpec(w, callable, taskId, eta, taskType);
      && r.Ok? && r.value !in w.queue.jobs && r.value !in w.queue.revoked
      && w'.queue.jobs == w.queue.jobs[r.value := Job(callable, [taskId], eta)]
      && w'.queue.revoked == w.queue.revoked
      && w'.store == w.store[RedisKey(taskType, taskId) := r.value]
      && w'.store[RedisKey(taskType, taskId)] == r.value
      && w'.trace == w.trace + [Submitted(r.value, Job(callable, [taskId], eta)), StoreSet(RedisKey(taskType, taskId), r.value)]
      && w'.broker == w.broker && w'.db == w.db
      && HandlesIssued(w')
  {
  }

  /** Scheduling over an existing key overwrites it and cancels nothing: the job the key named
      before stays live. */
  lemma ScheduleOverwritesWithoutRevoking(w: World, callable: Callable, taskId: Uuid, eta: int, taskType: TaskTypeCelery)
    requires AllUp(w) && HandlesIssued(w)
    requires RedisKey(taskType, taskId) in w.store && Live(w.queue, w.store[RedisKey(taskType, taskId)])
    ensures var (w', r) := ScheduleSpec(w, callable, taskId, eta, taskType);
      && Live(w'.queue, w.store[RedisKey(taskType, taskId)])
      && w'.store[RedisKey(taskType, taskId)] == r.value
      && r.value != w.store[RedisKey(taskType, taskId)]
  {
  }

  /** An unreachable queue fails the call before anything happens; an unreachable store fails it
      after the job was submitted, leaving that job live but unrecorded. */
  lemma ScheduleFailures(w: World, callable: Callable, taskId: Uuid, eta: int, taskType: TaskTypeCelery)
    requires HandlesIssued(w)
    ensures !w.faults.queueUp ==> ScheduleSpec(w, callable, taskId, eta, taskType) == (w, Err(QueueUnavailable))
    ensures w.faults.queueUp && !w.faults.storeUp ==>
      var (w', r) := ScheduleSpec(w, callable, taskId, eta, taskType);
      && r == Err(RedisConnectionError)
      && w'.store == w.store
      && Live(w'.queue, Handle(w.queue.next))
      && w'.queue.jobs == w.queue.jobs[Handle(w.queue.next) := Job(callable, [taskId], eta)]
  {
  }

  /** With no stored handle, revoking only reads the key: no cancellation and no delete. */
  lemma RevokeWithoutHandleIsNoop(w: World, taskId: Uuid, taskType: TaskTypeCelery)
    requires w.faults.storeUp && RedisKey(taskType, taskId) !in w.store
    ensures RevokeSpec(w, taskId, taskType) == (w.(trace := w.trace + [StoreGot(RedisKey(taskType, taskId))]), Ok(()))
  {
  }

  /** With a stored handle, revoking cancels exactly that job and removes exactly that key. */
  lemma RevokeCancelsStoredHandle(w: World, taskId: Uuid, taskType: TaskTypeCelery)
    requires AllUp(w)
    requires RedisKey(taskType, taskId) in w.store
    ensures var h := w.store[RedisKey(taskType, taskId)];
      var (w', r) := RevokeSpec(w, taskId, taskType);
      && r == Ok(())
      && w'.queue == w.queue.(revoked := w.queue.revoked + {h})
      && w'.store == w.store - {RedisKey(taskType, taskId)}
      && w'.trace == w.trace + [StoreGot(RedisKey(taskType, taskId)), Revoked(h), StoreDeleted(RedisKey(taskType, taskId))]
  {
  }

  /** An unchanged deadline touches neither the store nor the queue, and returns None. */
  lemma RescheduleSameDeadlineIsNoop(w: World, callable: Callable, taskId: Uuid, deadline: int, taskType: TaskTypeCelery)
    ensures RescheduleSpec(w, callable, taskId, deadline, deadline, taskType) == (w, Ok(None))
  {
  }

  /** A changed deadline revokes first and then schedules one hour before the new deadline,
      with the same job type; the result is the new job. */
  lemma RescheduleRevokesThenSchedules(w: World, callable: Callable, taskId: Uuid, oldDeadline: int, newDeadline: int,
                                       taskType: TaskTypeCelery)
    requires oldDeadline != newDeadline
    ensures var (w1, revoked) := RevokeSpec(w, taskId, taskType);
      revoked.Ok? ==>
        var (w2, scheduled) := ScheduleSpec(w1, callable, taskId, newDeadline - OneHour, taskType);
        RescheduleSpec(w, callable, taskId, oldDeadline, newDeadline, taskType)
          == (w2, if scheduled.Ok? then Ok(Some(scheduled.value)) else Err(scheduled.error))
  {
  }

  /** The end-to-end deadline change: the old job is revoked, a new one is due one hour before
      the new deadline, and the key names the new job only. */
  lemma RescheduleReplacesJob(w: World, callable: Callable, taskId: Uuid, oldDeadline: int, newDeadline: int,
                              taskType: TaskTypeCelery)
    requires AllUp(w) && HandlesIssued(w) && oldDeadline != newDeadline
    requires RedisKey(taskType, taskId) in w.store
    ensures var old_h := w.store[RedisKey(taskType, taskId)];
      var (w', r) := RescheduleSpec(w, callable, taskId, oldDeadline, newDeadline, taskType);
      && r.Ok? && r.value.Some?
      && !Live(w'.queue, old_h)
      && Live(w'.queue, r.value.value)
      && w'.queue.jobs[r.value.value] == Job(callable, [taskId], newDeadline - OneHour)
      && w'.store == w.store[RedisKey(taskType, taskId) := r.value.value]
  {
  }

  /** Every operation reads and writes only the key of its own `(type, id)`. */
  lemma OtherKeysUntouched(w: World, callable: Callable, taskId: Uuid, eta: int, oldDeadline: int, newDeadline: int,
                           taskType: TaskTypeCelery, key: string)
    requires key != RedisKey(taskType, taskId)
    ensures var w' := ScheduleSpec(w, callable, taskId, eta, taskType).0;
      (key in w'.store <==> key in w.store) && (key in w.store ==> w'.store[key] == w.store[key])
    ensures var w' := RevokeSpec(w, taskId, taskType).0;
      (key in w'.store <==> key in w.store) && (key in w.store ==> w'.store[key] == w.store[key])
    ensures var w' := RescheduleSpec(w, callable, taskId, oldDeadline, newDeadline, taskType).0;
      (key in w'.store <==> key in w.store) && (key in w.store ==> w'.store[key] == w.store[key])
  {
  }

  /** Scheduling and then revoking the same entity leaves no key behind and the job cancelled. */
  lemma ScheduleThenRevokeLeavesNoKey(w: World, callable: Callable, taskId: Uuid, eta: int, taskType: TaskTypeCelery)
    requires AllUp(w) && HandlesIssued(w)
    ensures var (w1, scheduled) := ScheduleSpec(w, callable, taskId, eta, taskType);
      var (w2, revoked) := RevokeSpec(w1, taskId, taskType);
      && scheduled.Ok? && revoked.Ok?
      && RedisKey(taskType, taskId) !in w2.store
      && !Live(w2.queue, scheduled.value)
  {
  }

  /** The three operations keep every handle the world mentions issued by the queue. */
  lemma OperationsKeepHandlesIssued(w: World, callable: Callable, taskId: Uuid, eta: int, oldDeadline: int,
                                    newDeadline: int, taskType: TaskTypeCelery)
    requires HandlesIssued(w)
    ensures HandlesIssued(ScheduleSpec(w, callable, taskId, eta, taskType).0)
    ensures HandlesIssued(RevokeSpec(w, taskId, taskType).0)
    ensures HandlesIssued(RescheduleSpec(w, callable, taskId, oldDeadline, newDeadline, taskType).0)
  {
  }
}
