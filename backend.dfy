/**
 * The external systems the core talks to, as one explicit world:
 *   - the job store (Redis): a string-keyed map from job keys to job handles;
 *   - the work queue (Celery): every job ever submitted, the handles revoked so far, and the
 *     next handle it will issue;
 *   - the message broker (Kafka): the log of every message it accepted;
 *   - the relational tables (Django ORM) the callers read and write;
 *   - an ordered trace of every external call that took effect, so that the order of the steps
 *     of a composite operation can be stated;
 *   - which services are reachable during the run.
 * Each external call is a pure function here (world in, world and result out) and a method of
 * `Env` that performs it on the mutable world and is specified by that function.
 */
module Backend {
  import opened Wrappers
  import opened Uuids
  import opened JsonEncoder

  // ---------------------------------------------------------------- work queue

  /** An opaque job id issued by the work queue. */
  datatype Handle = Handle(n: nat)

  /** The job bodies the core submits; `send_deadline_notification` is the only one. */
  datatype Callable = SendDeadlineNotification

  /** `callable.apply_async(args=args, eta=eta)`; times are integer seconds. */
  datatype Job = Job(callable: Callable, args: seq<Uuid>, eta: int)

  datatype Queue = Queue(jobs: map<Handle, Job>, revoked: set<Handle>, next: nat)

  /** A job that was submitted and has not been revoked. */
  predicate Live(q: Queue, h: Handle) {
    h in q.jobs && h !in q.revoked
  }

  // ---------------------------------------------------------------- broker

  datatype Message = Message(topic: string, key: string, value: Json)

  datatype KafkaCode = TimedOut | AllBrokersDown | OtherCode(code: int)

  // ---------------------------------------------------------------- tables

  /** Rows of the four tables the core touches; every row carries its UUID primary key. A
      membership row's role is nullable in memory, but the column is NOT NULL. */
  datatype UserRow = UserRow(id: Uuid, authUserId: Option<Uuid>)

  datatype ProjectRow = ProjectRow(id: Uuid, title: string, description: string, status: string, createdBy: Uuid)

  datatype MemberRow = MemberRow(id: Uuid, project: Uuid, user: Uuid, position: Uuid, role: Option<string>)

  datatype TaskRow = TaskRow(
    id: Uuid, title: string, description: string, deadline: int, status: string,
    assignee: Uuid, project: Uuid, createdBy: Uuid)

  /** The tables, each in insertion order; positions are known only by their ids. */
  datatype Db = Db(
    users: seq<UserRow>,
    positions: set<Uuid>,
    projects: seq<ProjectRow>,
    members: seq<MemberRow>,
    tasks: seq<TaskRow>)

  datatype Table = Users | Projects | Members | Tasks

  /** `queryset.filter(...)`: the rows satisfying the condition, in table order. */
  function Filter<R(!new)>(rows: seq<R>, p: R -> bool): (r: seq<R>)
    ensures |r| <= |rows|
    ensures forall x :: x in r <==> x in rows && p(x)
  {
    if rows == [] then []
    else (if p(rows[0]) then [rows[0]] else []) + Filter(rows[1..], p)
  }

  /** A matching row occurs in the result as often as in the table; any other row not at all. */
  lemma {:induction false} FilterCounts<R(!new)>(rows: seq<R>, p: R -> bool, x: R)
    ensures multiset(Filter(rows, p))[x] == if p(x) then multiset(rows)[x] else 0
  {
    if rows != [] {
      FilterCounts(rows[1..], p, x);
      assert rows == [rows[0]] + rows[1..];
    }
  }

  /** Filtering keeps table order: the matches of a concatenation are the matches of its first
      part followed by those of its second. */
  lemma {:induction false} FilterConcat<R(!new)>(a: seq<R>, b: seq<R>, p: R -> bool)
    ensures Filter(a + b, p) == Filter(a, p) + Filter(b, p)
  {
    if a == [] {
      assert a + b == b;
    } else {
      var ab := a + b;
      assert ab[0] == a[0] && ab[1..] == a[1..] + b;
      FilterConcat(a[1..], b, p);
      var head: seq<R> := if p(a[0]) then [a[0]] else [];
      assert Filter(ab, p) == head + Filter(ab[1..], p);
      assert Filter(a, p) == head + Filter(a[1..], p);
    }
  }

  /** `queryset.filter(...).exists()`. */
  predicate Exists<R>(rows: seq<R>, p: R -> bool) {
    exists i :: 0 <= i < |rows| && p(rows[i])
  }

  lemma {:induction false} FilterEmptyIff<R(!new)>(rows: seq<R>, p: R -> bool)
    ensures Filter(rows, p) == [] <==> !Exists(rows, p)
  {
    if rows != [] {
      FilterEmptyIff(rows[1..], p);
      assert forall i :: 1 <= i < |rows| ==> rows[i] == rows[1..][i - 1];
      if p(rows[0]) { assert Filter(rows, p)[0] == rows[0]; }
    }
  }

  /** `Model.objects.get(...)`: the one matching row, or the exception for none or several. */
  datatype Lookup<R> = NoRow | OneRow(row: R) | SeveralRows

  function Get<R(!new)>(rows: seq<R>, p: R -> bool): (r: Lookup<R>)
    ensures r.NoRow? <==> !Exists(rows, p)
    ensures r.OneRow? ==> r.row in rows && p(r.row) && forall x :: x in rows && p(x) ==> x == r.row
  {
    FilterEmptyIff(rows, p);
    var m := Filter(rows, p);
    if m == [] then NoRow
    else if |m| == 1 then OneRow(m[0])
    else SeveralRows
  }

  /** `ProjectUser.objects.get(project=..., user=...)`: a user can hold several memberships in one
      project (one per position), so the lookup can find several rows. */
  function Membership(db: Db, project: Uuid, user: Uuid): (r: Lookup<MemberRow>)
    ensures r.OneRow? ==> r.row in db.members && r.row.project == project && r.row.user == user
    ensures r.NoRow? <==> forall m :: m in db.members ==> !(m.project == project && m.user == user)
  {
    Get(db.members, (m: MemberRow) => m.project == project && m.user == user)
  }

  /** The keys in each table. */
  function UserIds(rows: seq<UserRow>): set<Uuid> { set r | r in rows :: r.id }
  function ProjectIds(rows: seq<ProjectRow>): set<Uuid> { set r | r in rows :: r.id }
  function MemberIds(rows: seq<MemberRow>): set<Uuid> { set r | r in rows :: r.id }
  function TaskIds(rows: seq<TaskRow>): set<Uuid> { set r | r in rows :: r.id }

  /** The write operations the core issues, one per ORM call. */
  datatype DbOp =
    | InsertUser(user: UserRow)
    | InsertProject(project: ProjectRow)
    | SaveProject(project: ProjectRow)
    | DeleteProject(projectId: Uuid)
    | InsertMember(member: MemberRow)
    | SaveMember(member: MemberRow)
    | DeleteMembers(memberProject: Uuid, memberUser: Uuid)
    | DeleteMember(memberId: Uuid)
    | InsertTask(task: TaskRow)
    | SaveTask(task: TaskRow)
    | DeleteTask(taskId: Uuid)

  /** `instance.save()`: update the row with that key, or insert it if there is none. */
  function Upsert<R>(rows: seq<R>, id: R -> Uuid, row: R): (r: seq<R>)
    ensures (exists i :: 0 <= i < |rows| && id(rows[i]) == id(row)) ==>
      && |r| == |rows|
      && forall i :: 0 <= i < |rows| ==> r[i] == (if id(rows[i]) == id(row) then row else rows[i])
    ensures (forall i :: 0 <= i < |rows| ==> id(rows[i]) != id(row)) ==> r == rows + [row]
    ensures row in r && (forall x :: x in r ==> x == row || x in rows)
    ensures forall x :: x in rows && id(x) != id(row) ==> x in r
  {
    if Exists(rows, (x: R) => id(x) == id(row)) then seq(|rows|, i requires 0 <= i < |rows| => if id(rows[i]) == id(row) then row else rows[i])
    else rows + [row]
  }

  /** The effect of one write on the tables: the new tables and the trace entry, or the
      database error. A primary-key clash and a NULL role raise `IntegrityError`; deleting a
      project cascades to its memberships and its tasks. */
  function ApplyDb(db: Db, op: DbOp): Result<(Db, Effect), Exc> {
    match op
    case InsertUser(u) =>
      if u.id in UserIds(db.users) then Err(IntegrityError)
      else if u.authUserId.Some? && Exists(db.users, (x: UserRow) => x.authUserId == u.authUserId) then Err(IntegrityError)
      else Ok((db.(users := db.users + [u]), Inserted(Users, u.id)))
    case InsertProject(p) =>
      if p.id in ProjectIds(db.projects) then Err(IntegrityError)
      else Ok((db.(projects := db.projects + [p]), Inserted(Projects, p.id)))
    case SaveProject(p) =>
      Ok((db.(projects := Upsert(db.projects, (x: ProjectRow) => x.id, p)), Saved(Projects, p.id)))
    case DeleteProject(id) =>
      Ok((db.(projects := Filter(db.projects, (x: ProjectRow) => x.id != id),
              members := Filter(db.members, (m: MemberRow) => m.project != id),
              tasks := Filter(db.tasks, (t: TaskRow) => t.project != id)),
          Deleted(Projects, {id})))
    case InsertMember(m) =>
      if m.id in MemberIds(db.members) || m.role.None? then Err(IntegrityError)
      else Ok((db.(members := db.members + [m]), Inserted(Members, m.id)))
    case SaveMember(m) =>
      if m.role.None? then Err(IntegrityError)
      else Ok((db.(members := Upsert(db.members, (x: MemberRow) => x.id, m)), Saved(Members, m.id)))
    case DeleteMembers(p, u) =>
      var ids := set m | m in db.members && m.project == p && m.user == u :: m.id;
      Ok((db.(members := Filter(db.members, (m: MemberRow) => !(m.project == p && m.user == u))), Deleted(Members, ids)))
    case DeleteMember(id) =>
      Ok((db.(members := Filter(db.members, (m: MemberRow) => m.id != id)), Deleted(Members, {id})))
    case InsertTask(t) =>
      if t.id in TaskIds(db.tasks) then Err(IntegrityError)
      else Ok((db.(tasks := db.tasks + [t]), Inserted(Tasks, t.id)))
    case SaveTask(t) =>
      Ok((db.(tasks := Upsert(db.tasks, (x: TaskRow) => x.id, t)), Saved(Tasks, t.id)))
    case DeleteTask(id) =>
      Ok((db.(tasks := Filter(db.tasks, (t: TaskRow) => t.id != id)), Deleted(Tasks, {id})))
  }

  // ---------------------------------------------------------------- exceptions

  /** The payload of a validation error: `{"field": "message"}`, a bare message, or
      `{"field": str(e)}` around another exception. */
  datatype Detail = FieldError(field: string, message: string) | Text(message: string) | Wrapped(field: string, inner: Exc)

  /** The exceptions the core raises or lets through. */
  datatype Exc =
    | RedisConnectionError
    | QueueUnavailable
    | KafkaException(code: KafkaCode)
    | BuiltinConnectionError
    | ProducerInitError
    | OtherException(name: string)
    | JsonTypeError(error: EncodeError)
    | UnexpectedKeyword(keyword: string)
    | MissingArgument(name: string)
    | DrfValidationError(detail: Detail)
    | DjangoValidationError(detail: Detail)
    | ObjectDoesNotExist(message: string)
    | MultipleObjectsReturned
    | NotFound(message: string)
    | IntegrityError
    | ValueError(field: string)
    | KeyError(key: string)
    | AttributeError(name: string)

  // ---------------------------------------------------------------- availability

  /** What the producer does during a run: accept, flush and deliver; accept and flush
      without delivering (`flush` returns normally either way, and no delivery callback is
      registered, so the caller cannot tell); raise from `produce`/`flush`; or raise already
      while being constructed. */
  datatype ProducerFate = Accepts | AcceptsUndelivered | ProduceRaises(e: Exc) | ConstructorRaises(e: Exc)

  datatype Faults = Faults(storeUp: bool, queueUp: bool, producer: ProducerFate)

  // ---------------------------------------------------------------- trace

  datatype LogLine =
    | EventBeforeProduce
    | SentMessage(topic: string)
    | KafkaTimeoutLogged
    | NoBrokersLogged
    | KafkaErrorLogged
    | ConnectionErrorLogged

  datatype Effect =
    | StoreGot(key: string)
    | StoreSet(key: string, value: Handle)
    | StoreDeleted(key: string)
    | Submitted(handle: Handle, job: Job)
    | Revoked(handle: Handle)
    | ProducerCreated
    | Produced(message: Message)
    | Flushed
    | Logged(line: LogLine)
    | Inserted(table: Table, id: Uuid)
    | Saved(table: Table, id: Uuid)
    | Deleted(table: Table, ids: set<Uuid>)

  datatype World = World(
    store: map<string, Handle>,
    queue: Queue,
    broker: seq<Message>,
    db: Db,
    trace: seq<Effect>,
    faults: Faults)

  // ---------------------------------------------------------------- primitive calls

  /** One ORM write; a database error leaves the tables and the trace as they were. */
  function Write(w: World, op: DbOp): (World, Result<(), Exc>) {
    match ApplyDb(w.db, op)
    case Ok((db, e)) => (w.(db := db, trace := w.trace + [e]), Ok(()))
    case Err(x) => (w, Err(x))
  }

  /** Deleting one membership row always succeeds: that row goes, every other row stays, and
      only the tables and the trace change. */
  lemma DeleteMemberWrites(w: World, id: Uuid)
    ensures var (w', r) := Write(w, DeleteMember(id));
      && r == Ok(()) && w' == w.(db := w'.db, trace := w.trace + [Deleted(Members, {id})])
      && (forall m :: m in w'.db.members <==> m in w.db.members && m.id != id)
  {
  }

  /** Deleting one task row always succeeds: no row with that id is left, and only the tables
      and the trace change. */
  lemma DeleteTaskWrites(w: World, id: Uuid)
    ensures var (w', r) := Write(w, DeleteTask(id));
      && r == Ok(()) && w' == w.(db := w'.db, trace := w.trace + [Deleted(Tasks, {id})])
      && (forall t :: t in w'.db.tasks <==> t in w.db.tasks && t.id != id)
  {
  }

  /** `redis_client.get(key)`. */
  function StoreGet(w: World, key: string): (World, Result<Option<Handle>, Exc>) {
    if !w.faults.storeUp then (w, Err(RedisConnectionError))
    else (w.(trace := w.trace + [StoreGot(key)]), Ok(if key in w.store then Some(w.store[key]) else None))
  }

  /** `redis_client.set(key, value)`: last write wins. */
  function StorePut(w: World, key: string, h: Handle): (World, Result<(), Exc>) {
    if !w.faults.storeUp then (w, Err(RedisConnectionError))
    else (w.(store := w.store[key := h], trace := w.trace + [StoreSet(key, h)]), Ok(()))
  }

  /** `redis_client.delete(key)`. */
  function StoreDelete(w: World, key: string): (World, Result<(), Exc>) {
    if !w.faults.storeUp then (w, Err(RedisConnectionError))
    else (w.(store := w.store - {key}, trace := w.trace + [StoreDeleted(key)]), Ok(()))
  }

  /** `apply_async`: the queue records the job under a handle it has never issued. */
  function Submit(w: World, job: Job): (World, Result<Handle, Exc>) {
    if !w.faults.queueUp then (w, Err(QueueUnavailable))
    else
      var h := Handle(w.queue.next);
      (w.(queue := Queue(w.queue.jobs[h := job], w.queue.revoked, w.queue.next + 1),
          trace := w.trace + [Submitted(h, job)]),
       Ok(h))
  }

  /** `AsyncResult(id).revoke()`: recorded whether or not the job exists or already ran. */
  function Revoke(w: World, h: Handle): (World, Result<(), Exc>) {
    if !w.faults.queueUp then (w, Err(QueueUnavailable))
    else (w.(queue := w.queue.(revoked := w.queue.revoked + {h}), trace := w.trace + [Revoked(h)]), Ok(()))
  }

  /** `Producer({...})`: a new client on every call. */
  function CreateProducer(w: World): (World, Result<(), Exc>) {
    if w.faults.producer.ConstructorRaises? then (w, Err(w.faults.producer.e))
    else (w.(trace := w.trace + [ProducerCreated]), Ok(()))
  }

  /** `producer.produce(...)` followed by `producer.flush()`: the broker takes the message only
      when the producer accepts it. */
  function ProduceFlush(w: World, msg: Message): (World, Result<(), Exc>) {
    match w.faults.producer
    case Accepts => (w.(broker := w.broker + [msg], trace := w.trace + [Produced(msg), Flushed]), Ok(()))
    case AcceptsUndelivered => (w.(trace := w.trace + [Produced(msg), Flushed]), Ok(()))
    case ProduceRaises(e) => (w, Err(e))
    case ConstructorRaises(e) => (w, Err(e))
  }

  /** Appends to the trace only. */
  function Log(w: World, line: LogLine): World {
    w.(trace := w.trace + [Logged(line)])
  }

  /** Every handle the world mentions (submitted, revoked or stored) was issued by the queue,
      so the queue's next handle is new to all of them. */
  ghost predicate HandlesIssued(w: World) {
    && (forall h :: h in w.queue.jobs ==> h.n < w.queue.next)
    && (forall h :: h in w.queue.revoked ==> h.n < w.queue.next)
    && (forall k :: k in w.store ==> w.store[k].n < w.queue.next)
  }

  // ---------------------------------------------------------------- the mutable world

  class Env {
    var store: map<string, Handle>
    var queue: Queue
    var broker: seq<Message>
    var db: Db
    var trace: seq<Effect>
    const faults: Faults

    function State(): World
      reads this
    {
      World(store, queue, broker, db, trace, faults)
    }

    constructor (w: World)
      ensures State() == w
    {
      store, queue, broker, db, trace, faults := w.store, w.queue, w.broker, w.db, w.trace, w.faults;
    }

    method Get(key: string) returns (r: Result<Option<Handle>, Exc>)
      modifies this
      ensures (State(), r) == StoreGet(old(State()), key)
    {
      if !faults.storeUp {
        return Err(RedisConnectionError);
      }
      trace := trace + [StoreGot(key)];
      r := Ok(if key in store then Some(store[key]) else None);
    }

    method Set(key: string, h: Handle) returns (r: Result<(), Exc>)
      modifies this
      ensures (State(), r) == StorePut(old(State()), key, h)
    {
      if !faults.storeUp {
        return Err(RedisConnectionError);
      }
      store := store[key := h];
      trace := trace + [StoreSet(key, h)];
      r := Ok(());
    }

    method Delete(key: string) returns (r: Result<(), Exc>)
      modifies this
      ensures (State(), r) == StoreDelete(old(State()), key)
    {
      if !faults.storeUp {
        return Err(RedisConnectionError);
      }
      store := store - {key};
      trace := trace + [StoreDeleted(key)];
      r := Ok(());
    }

    method ApplyAsync(job: Job) returns (r: Result<Handle, Exc>)
      modifies this
      ensures (State(), r) == Submit(old(State()), job)
    {
      if !faults.queueUp {
        return Err(QueueUnavailable);
      }
      var h := Handle(queue.next);
      queue := Queue(queue.jobs[h := job], queue.revoked, queue.next + 1);
      trace := trace + [Submitted(h, job)];
      r := Ok(h);
    }

    method RevokeJob(h: Handle) returns (r: Result<(), Exc>)
      modifies this
      ensures (State(), r) == Revoke(old(State()), h)
    {
      if !faults.queueUp {
        return Err(QueueUnavailable);
      }
      queue := queue.(revoked := queue.revoked + {h});
      trace := trace + [Revoked(h)];
      r := Ok(());
    }

    method NewProducer() returns (r: Result<(), Exc>)
      modifies this
      ensures (State(), r) == CreateProducer(old(State()))
    {
      if faults.producer.ConstructorRaises? {
        return Err(faults.producer.e);
      }
      trace := trace + [ProducerCreated];
      r := Ok(());
    }

    method Produce(msg: Message) returns (r: Result<(), Exc>)
      modifies this
      ensures (State(), r) == ProduceFlush(old(State()), msg)
    {
      match faults.producer
      case Accepts =>
        broker := broker + [msg];
        trace := trace + [Produced(msg), Flushed];
        r := Ok(());
      case AcceptsUndelivered =>
        trace := trace + [Produced(msg), Flushed];
        r := Ok(());
      case ProduceRaises(e) =>
        r := Err(e);
      case ConstructorRaises(e) =>
        r := Err(e);
    }

    method Execute(op: DbOp) returns (r: Result<(), Exc>)
      modifies this
      ensures (State(), r) == Write(old(State()), op)
    {
      var a := ApplyDb(db, op);
      match a
      case Ok((db', e)) =>
        db := db';
        trace := trace + [e];
        r := Ok(());
      case Err(x) =>
        r := Err(x);
    }

    method WriteLog(line: LogLine)
      modifies this
      ensures State() == Log(old(State()), line)
    {
      trace := trace + [Logged(line)];
    }
  }
}
