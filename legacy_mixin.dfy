/**
 * The older scheduler (`CeleryTaskMixin` in common/mixins.py). It keys the job store by
 * `"task: {id}"` alone, but `revoke_task` reads `"task : {id}"` (a space before the colon), a key
 * that `schedule_task` never writes; on a hit it deletes `"task: {id}"`, not the key it read.
 */
module LegacyCeleryMixin {
  import opened Wrappers
  import opened Uuids
  import opened Backend

  const OneHour: int := 3600

  /** The key `schedule_task` writes and `revoke_task` deletes: `f"task: {task_id}"`. */
  function WriteKey(taskId: Uuid): string {
    "task: " + Canonical(taskId)
  }

  /** The key `revoke_task` reads: `f"task : {task_id}"`. */
  function LookupKey(taskId: Uuid): string {
    "task : " + Canonical(taskId)
  }

  /** The two spellings never name the same key, for any pair of ids. */
  lemma KeysNeverMeet(a: Uuid, b: Uuid)
    ensures WriteKey(a) != LookupKey(b)
  {
    assert WriteKey(a)[4] == ':' && LookupKey(b)[4] == ' ';
  }

  function ScheduleSpec(w: World, callable: Callable, taskId: Uuid, eta: int): (World, Result<Handle, Exc>) {
    var (w1, submitted) := Submit(w, Job(callable, [taskId], eta));
    if submitted.Err? then (w1, Err(submitted.error))
    else
      var (w2, stored) := StorePut(w1, WriteKey(taskId), submitted.value);
      if stored.Err? then (w2, Err(stored.error)) else (w2, Ok(submitted.value))
  }

  function RevokeSpec(w: World, taskId: Uuid): (World, Result<(), Exc>) {
    var (w1, found) := StoreGet(w, LookupKey(taskId));
    if found.Err? then (w1, Err(found.error))
    else if found.value.None? then (w1, Ok(()))
    else
      var (w2, revoked) := Revoke(w1, found.value.value);
      if revoked.Err? then (w2, Err(revoked.error)) else StoreDelete(w2, WriteKey(taskId))
  }

  function RescheduleSpec(w: World, callable: Callable, taskId: Uuid, oldDeadline: int, newDeadline: int)
    : (World, Result<Option<Handle>, Exc>)
  {
    if oldDeadline == newDeadline then (w, Ok(None))
    else
      var (w1, revoked) := RevokeSpec(w, taskId);
      if revoked.Err? then (w1, Err(revoked.error))
      else
        var (w2, scheduled) := ScheduleSpec(w1, callable, taskId, newDeadline - OneHour);
        if scheduled.Err? then (w2, Err(scheduled.error)) else (w2, Ok(Some(scheduled.value)))
  }

  method ScheduleTask(env: Env, callable: Callable, taskId: Uuid, eta: int) returns (r: Result<Handle, Exc>)
    modifies env
    ensures (env.State(), r) == ScheduleSpec(old(env.State()), callable, taskId, eta)
  {
    var submitted := env.ApplyAsync(Job(callable, [taskId], eta));
    if submitted.Err? {
      return Err(submitted.error);
    }
    var stored := env.Set(WriteKey(taskId), submitted.value);
    if stored.Err? {
      return Err(stored.error);
    }
    r := Ok(submitted.value);
  }

  method RevokeTask(env: Env, taskId: Uuid) returns (r: Result<(), Exc>)
    modifies env
    ensures (env.State(), r) == RevokeSpec(old(env.State()), taskId)
  {
    var found := env.Get(LookupKey(taskId));
    if found.Err? {
      return Err(found.error);
    }
    if found.value.Some? {
      var revoked := env.RevokeJob(found.value.value);
      if revoked.Err? {
        return Err(revoked.error);
      }
      r := env.Delete(WriteKey(taskId));
    } else {
      r := Ok(());
    }
  }

  method RescheduleTask(env: Env, callable: Callable, taskId: Uuid, oldDeadline: int, newDeadline: int)
    returns (r: Result<Option<Handle>, Exc>)
    modifies env
    ensures (env.State(), r) == RescheduleSpec(old(env.State()), callable, taskId, oldDeadline, newDeadline)
  {
    if oldDeadline == newDeadline {
      return Ok(None);
    }
    var notificationTime := newDeadline - OneHour;
    var revoked := RevokeTask(env, taskId);
    if revoked.Err? {
      return Err(revoked.error);
    }
    var scheduled := ScheduleTask(env, callable, taskId, notificationTime);
    if scheduled.Err? {
      return Err(scheduled.error);
    }
    r := Ok(Some(scheduled.value));
  }

  /** Only the spaced-key convention's own writer could make a lookup hit; none exists. */
  ghost predicate NoSpacedKeys(w: World) {
    forall id: Uuid :: LookupKey(id) !in w.store
  }

  /** Scheduling keeps the store free of spaced keys. */
  lemma ScheduleKeepsNoSpacedKeys(w: World, callable: Callable, taskId: Uuid, eta: int)
    requires NoSpacedKeys(w)
    ensures NoSpacedKeys(ScheduleSpec(w, callable, taskId, eta).0)
  {
    forall id: Uuid ensures LookupKey(id) !in ScheduleSpec(w, callable, taskId, eta).0.store {
      KeysNeverMeet(taskId, id);
    }
  }

  /** Schedule followed by revoke cancels nothing and deletes nothing: the reminder stays live
      and its key stays stored. */
  lemma ScheduleThenRevokeLeavesJobLive(w: World, callable: Callable, taskId: Uuid, eta: int)
    requires w.faults.storeUp && w.faults.queueUp && HandlesIssued(w) && NoSpacedKeys(w)
    ensures var (w1, scheduled) := ScheduleSpec(w, callable, taskId, eta);
      var (w2, revoked) := RevokeSpec(w1, taskId);
      && scheduled.Ok? && revoked == Ok(())
      && Live(w2.queue, scheduled.value)
      && w2.store == w1.store && w2.store[WriteKey(taskId)] == scheduled.value
      && w2.trace == w1.trace + [StoreGot(LookupKey(taskId))]
  {
    ScheduleKeepsNoSpacedKeys(w, callable, taskId, eta);
  }

  /** If a spaced key is present after all, revoking cancels the job it names but deletes the
      other spelling, so the key it read stays behind. */
  lemma RevokeHitDeletesOtherKey(w: World, taskId: Uuid)
    requires w.faults.storeUp && w.faults.queueUp && LookupKey(taskId) in w.store
    ensures var (w', r) := RevokeSpec(w, taskId);
      && r == Ok(())
      && w.store[LookupKey(taskId)] in w'.queue.revoked
      && w'.store == w.store - {WriteKey(taskId)}
      && LookupKey(taskId) in w'.store
  {
    KeysNeverMeet(taskId, taskId);
  }

  /** An unchanged deadline does nothing. */
  lemma RescheduleSameDeadlineIsNoop(w: World, callable: Callable, taskId: Uuid, deadline: int)
    ensures RescheduleSpec(w, callable, taskId, deadline, deadline) == (w, Ok(None))
  {
  }

  /** A changed deadline schedules the new job one hour before it and overwrites the key, but
      the old job is never cancelled: two reminders are then live. */
  lemma RescheduleLeavesOldJobLive(w: World, callable: Callable, taskId: Uuid, oldDeadline: int, newDeadline: int)
    requires w.faults.storeUp && w.faults.queueUp && HandlesIssued(w) && NoSpacedKeys(w)
    requires oldDeadline != newDeadline
    requires WriteKey(taskId) in w.store && Live(w.queue, w.store[WriteKey(taskId)])
    ensures var (w', r) := RescheduleSpec(w, callable, taskId, oldDeadline, newDeadline);
      && r.Ok? && r.value.Some?
      && Live(w'.queue, w.store[WriteKey(taskId)])
      && Live(w'.queue, r.value.value)
      && r.value.value != w.store[WriteKey(taskId)]
      && w'.queue.jobs[r.value.value] == Job(callable, [taskId], newDeadline - OneHour)
      && w'.store == w.store[WriteKey(taskId) := r.value.value]
  {
  }
}
