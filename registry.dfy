/**
 * The task registry: the map from task id (the account's mail) to the
 * task's status, shared by the request handlers and the workers. Each
 * section the service runs under its lock is one method here.
 */
module Registry {
  import opened Wrappers

  /** A wall-clock instant, in nanoseconds since the Unix epoch. */
  type Instant = int

  const Second := 1_000_000_000
  const Minute := 60 * Second

  /** Tasks older than this are removed by the cleanup pass. */
  const Retention := 30 * Minute

  /** Go's zero time.Time, January 1 of year 1, 00:00:00 UTC. */
  const ZeroTime: Instant := -62_135_596_800 * Second

  const StatusProcessing := 1
  const StatusCompleted := 2
  const StatusFailed := 3

  /** TaskStatus */
  datatype TaskStatus = TaskStatus(statusCode: int, status: string, token: string, error: string, startTime: Instant)

  /** The zero TaskStatus, which Go's map read yields for a missing id. */
  const ZeroStatus := TaskStatus(0, "", "", "", ZeroTime)

  type Tasks = map<string, TaskStatus>

  /** The entry written when a task is submitted. */
  function Processing(now: Instant): TaskStatus {
    TaskStatus(StatusProcessing, "processing", "", "", now)
  }

  /** The entry written when the worker finishes: a token, or an error's text. */
  function Terminal(outcome: Result<string, string>, startTime: Instant): TaskStatus {
    match outcome
    case Ok(token) => TaskStatus(StatusCompleted, "completed", token, "", startTime)
    case Err(text) => TaskStatus(StatusFailed, "failed", "", text, startTime)
  }

  /** The three shapes an entry of the registry can have. */
  predicate WellFormed(s: TaskStatus) {
    || (s.statusCode == StatusProcessing && s.status == "processing" && s.token == "" && s.error == "")
    || (s.statusCode == StatusCompleted && s.status == "completed" && s.error == "")
    || (s.statusCode == StatusFailed && s.status == "failed" && s.token == "")
  }

  /** Go's two-result map read: the entry and true, or the zero value and false. */
  function Get(tasks: Tasks, id: string): (TaskStatus, bool) {
    if id in tasks then (tasks[id], true) else (ZeroStatus, false)
  }

  /** The map after a task is submitted. */
  function Registered(tasks: Tasks, id: string, now: Instant): (r: Tasks)
    ensures r.Keys == tasks.Keys + {id}
    ensures WellFormed(r[id]) && r[id].statusCode == StatusProcessing && r[id].startTime == now
  {
    tasks[id := Processing(now)]
  }

  /** The map after the worker records its outcome; the start time is read from the current entry. */
  function Completed(tasks: Tasks, id: string, outcome: Result<string, string>): (r: Tasks)
    ensures r.Keys == tasks.Keys + {id}
    ensures WellFormed(r[id]) && r[id].statusCode != StatusProcessing
    ensures (r[id].statusCode == StatusCompleted) == outcome.Ok?
  {
    tasks[id := Terminal(outcome, Get(tasks, id).0.startTime)]
  }

  /** time.Time.Before(now - 30 minutes) */
  predicate Expired(s: TaskStatus, now: Instant) {
    s.startTime < now - Retention
  }

  /** The map after a cleanup pass at `now`. */
  function Evicted(tasks: Tasks, now: Instant): (r: Tasks)
    ensures forall id :: id in tasks ==> (id in r <==> !Expired(tasks[id], now))
    ensures forall id :: id in r ==> id in tasks && r[id] == tasks[id]
  {
    map id | id in tasks && !Expired(tasks[id], now) :: tasks[id]
  }

  /** Right after submission the task reads as processing since `now`; no other id changes. */
  lemma RegisterEffect(tasks: Tasks, id: string, now: Instant)
    ensures Get(Registered(tasks, id, now), id) == (TaskStatus(1, "processing", "", "", now), true)
    ensures forall other :: other != id ==> Get(Registered(tasks, id, now), other) == Get(tasks, other)
  {
  }

  /**
   * Completion overwrites only `id`: with code 3, "failed" and the error
   * text, or code 2, "completed" and the token. The start time is the
   * current entry's, or the zero time if the entry is gone.
   */
  lemma CompleteEffect(tasks: Tasks, id: string, outcome: Result<string, string>)
    ensures var (s, found) := Get(Completed(tasks, id, outcome), id);
      && found
      && (outcome.Err? ==> s.statusCode == 3 && s.status == "failed" && s.error == outcome.error && s.token == "")
      && (outcome.Ok? ==> s.statusCode == 2 && s.status == "completed" && s.token == outcome.value && s.error == "")
      && s.startTime == (if id in tasks then tasks[id].startTime else ZeroTime)
    ensures forall other :: other != id ==> Get(Completed(tasks, id, outcome), other) == Get(tasks, other)
  {
  }

  /** After a cleanup pass no expired entry is left and every other entry is kept unchanged. */
  lemma EvictionEffect(tasks: Tasks, now: Instant)
    ensures forall id :: id in Evicted(tasks, now) ==> !Expired(Evicted(tasks, now)[id], now)
    ensures forall id :: id in tasks && !Expired(tasks[id], now) ==>
              id in Evicted(tasks, now) && Evicted(tasks, now)[id] == tasks[id]
    ensures Evicted(tasks, now).Keys <= tasks.Keys
  {
  }

  /** A second cleanup pass at the same instant changes nothing. */
  lemma EvictionIdempotent(tasks: Tasks, now: Instant)
    ensures Evicted(Evicted(tasks, now), now) == Evicted(tasks, now)
  {
  }

  /** A task started 31 minutes ago is removed; one started 29 or exactly 30 minutes ago stays. */
  lemma RetentionBoundary(tasks: Tasks, id: string, now: Instant)
    requires id in tasks
    ensures tasks[id].startTime == now - 31 * Minute ==> id !in Evicted(tasks, now)
    ensures tasks[id].startTime == now - 29 * Minute ==> id in Evicted(tasks, now)
    ensures tasks[id].startTime == now - 30 * Minute ==> id in Evicted(tasks, now)
  {
  }

  /**
   * A worker that finishes after its entry was evicted re-creates the entry
   * with the zero start time, and the next cleanup pass removes it again.
   */
  lemma LateCompletionSwept(tasks: Tasks, id: string, outcome: Result<string, string>, now: Instant)
    requires id !in tasks
    requires now >= ZeroTime + Retention + 1
    ensures id in Completed(tasks, id, outcome)
    ensures Completed(tasks, id, outcome)[id].startTime == ZeroTime
    ensures id !in Evicted(Completed(tasks, id, outcome), now)
  {
  }

  /** Every operation keeps every entry well-formed. */
  lemma OperationsKeepWellFormed(tasks: Tasks, id: string, now: Instant, outcome: Result<string, string>)
    requires forall k :: k in tasks ==> WellFormed(tasks[k])
    ensures forall k :: k in Registered(tasks, id, now) ==> WellFormed(Registered(tasks, id, now)[k])
    ensures forall k :: k in Completed(tasks, id, outcome) ==> WellFormed(Completed(tasks, id, outcome)[k])
    ensures forall k :: k in Evicted(tasks, now) ==> WellFormed(Evicted(tasks, now)[k])
  {
  }

  /** taskStatusMap, with the critical sections that read and write it. */
  class TaskRegistry {
    var tasks: Tasks

    ghost predicate Valid()
      reads this
    {
      forall id :: id in tasks ==> WellFormed(tasks[id])
    }

    constructor ()
      ensures Valid() && tasks == map[]
    {
      tasks := map[];
    }

    /** The registration in processTaskAsync. */
    method Register(id: string, now: Instant)
      requires Valid()
      modifies this
      ensures Valid()
      ensures tasks == Registered(old(tasks), id, now)
    {
      tasks := tasks[id := TaskStatus(StatusProcessing, "processing", "", "", now)];
    }

    /** The worker's final write: unconditional, keyed by the task id. */
    method Complete(id: string, outcome: Result<string, string>)
      requires Valid()
      modifies this
      ensures Valid()
      ensures tasks == Completed(old(tasks), id, outcome)
    {
      var startTime := if id in tasks then tasks[id].startTime else ZeroTime;
      if outcome.Err? {
        tasks := tasks[id := TaskStatus(StatusFailed, "failed", "", outcome.error, startTime)];
      } else {
        tasks := tasks[id := TaskStatus(StatusCompleted, "completed", outcome.value, "", startTime)];
      }
    }

    /** cleanupOldTasks: walk the entries and delete those started before the cutoff. */
    method Evict(now: Instant)
      requires Valid()
      modifies this
      ensures Valid()
      ensures tasks == Evicted(old(tasks), now)
    {
      var cutoff := now - Retention;
      ghost var original := tasks;
      var pending := tasks.Keys;
      while pending != {}
        invariant pending <= original.Keys
        invariant tasks == map id | id in original && (id in pending || !Expired(original[id], now)) :: original[id]
        decreases pending
      {
        var id :| id in pending;
        if tasks[id].startTime < cutoff {
          tasks := tasks - {id};
        }
        pending := pending - {id};
      }
      OperationsKeepWellFormed(original, "", now, Ok(""));
    }

    /** The read in handleGetTaskResult: the entry and whether it exists. */
    method Lookup(id: string) returns (status: TaskStatus, found: bool)
      ensures (status, found) == Get(tasks, id)
      ensures found <==> id in tasks
      ensures found ==> status == tasks[id]
      ensures !found ==> status == ZeroStatus
    {
      found := id in tasks;
      status := if found then tasks[id] else ZeroStatus;
    }
  }
}
