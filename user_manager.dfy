/** user_manager.py: the process-wide per-user store of conversational
    state, merge queue, last progress record and lock registry. */
module Users {
  import opened Wrappers
  import opened Config

  /** The state a user is in before anything set one. */
  const Idle: string := "idle"

  /** A queued merge item: the dict {'path': ..., 'type': ...} the bot enqueues. */
  datatype Task = Task(path: string, kind: FileKind)

  /** A progress record. The default record of an unseen user has no timestamp. */
  datatype ProgressRecord = ProgressRecord(progress: real, status: string, timestamp: Option<real>)

  /** What `get_progress` answers for a user with no record. */
  const DefaultProgress: ProgressRecord := ProgressRecord(0.0, "Idle", None)

  /** A registry entry; its identity is all the store relies on. */
  class Lock {
    constructor ()
    {
    }
  }

  class UserManager {
    var userQueues: map<int, seq<Task>>
    var userStates: map<int, string>
    var progressTrackers: map<int, ProgressRecord>
    var locks: map<int, Lock>

    /** An empty store: every user is idle, has an empty queue and the
        default progress record. */
    constructor ()
      ensures userQueues == map[] && userStates == map[]
      ensures progressTrackers == map[] && locks == map[]
      ensures forall u :: GetUserState(u) == Idle && GetQueue(u) == [] && GetProgress(u) == DefaultProgress
    {
      userQueues := map[];
      userStates := map[];
      progressTrackers := map[];
      locks := map[];
    }

    /** `get_lock`: the registry entry of `user`, created on the first call
        only; the same entry on every later call. */
    method GetLock(user: int) returns (lock: Lock)
      modifies this`locks
      ensures user in old(locks) ==> lock == old(locks)[user] && locks == old(locks)
      ensures user !in old(locks) ==> fresh(lock) && locks == old(locks)[user := lock]
      ensures user in locks && locks[user] == lock
    {
      if user !in locks {
        var created := new Lock();
        locks := locks[user := created];
      }
      lock := locks[user];
    }

    /** `set_user_state`: overwrites the state of `user`, with no check
        against the bot's state machine. */
    method SetUserState(user: int, state: string)
      modifies this`userStates
      ensures userStates == old(userStates)[user := state]
      ensures GetUserState(user) == state
      ensures forall v :: v != user ==> GetUserState(v) == old(GetUserState(v))
    {
      userStates := userStates[user := state];
    }

    /** `get_user_state`: the last state set for `user`, "idle" if none was. */
    function GetUserState(user: int): (state: string)
      reads this
      ensures user !in userStates ==> state == Idle
      ensures user in userStates ==> state == userStates[user]
    {
      if user in userStates then userStates[user] else Idle
    }

    /** `add_to_queue`: appends `task` to the queue of `user`, creating the
        queue if absent; no other queue changes. */
    method AddToQueue(user: int, task: Task)
      modifies this`userQueues
      ensures userQueues == old(userQueues)[user := old(GetQueue(user)) + [task]]
      ensures GetQueue(user) == old(GetQueue(user)) + [task]
      ensures forall v :: v != user ==> GetQueue(v) == old(GetQueue(v))
    {
      if user !in userQueues {
        userQueues := userQueues[user := []];
      }
      userQueues := userQueues[user := userQueues[user] + [task]];
    }

    /** `get_queue`: the queue of `user`, or an empty one (not stored) when
        the user has none. */
    function GetQueue(user: int): (queue: seq<Task>)
      reads this
      ensures user !in userQueues ==> queue == []
      ensures user in userQueues ==> queue == userQueues[user]
    {
      if user in userQueues then userQueues[user] else []
    }

    /** `clear_queue`: empties an existing queue of `user`; a user without a
        queue keeps having none. */
    method ClearQueue(user: int)
      modifies this`userQueues
      ensures user in old(userQueues) ==> userQueues == old(userQueues)[user := []]
      ensures user !in old(userQueues) ==> userQueues == old(userQueues)
      ensures GetQueue(user) == []
      ensures forall v :: v != user ==> GetQueue(v) == old(GetQueue(v))
    {
      if user in userQueues {
        userQueues := userQueues[user := []];
      }
    }

    /** `update_progress`: replaces the whole record of `user` with the given
        values and the event loop's clock (`now`); a value lower than the one
        stored before is stored all the same. */
    method UpdateProgress(user: int, progress: real, status: string, now: real)
      modifies this`progressTrackers
      ensures progressTrackers == old(progressTrackers)[user := ProgressRecord(progress, status, Some(now))]
      ensures GetProgress(user).progress == progress
      ensures forall v :: v != user ==> GetProgress(v) == old(GetProgress(v))
    {
      // The placeholder {} the source stores first is overwritten at once.
      progressTrackers := progressTrackers[user := ProgressRecord(progress, status, Some(now))];
    }

    /** `get_progress`: the last record stored for `user`, or
        {progress: 0, status: 'Idle'} when there is none. */
    function GetProgress(user: int): (record: ProgressRecord)
      reads this
      ensures user !in progressTrackers ==> record == DefaultProgress
      ensures user in progressTrackers ==> record == progressTrackers[user]
    {
      if user in progressTrackers then progressTrackers[user] else DefaultProgress
    }
  }

  /** Progress is not monotone in the store: after a report of `high` and a
      later one of `low < high`, the store answers `low`. */
  method ProgressRegression(user: int, high: real, low: real, t0: real, t1: real)
    returns (stored: real)
    requires low < high
    ensures stored == low
  {
    var m := new UserManager();
    m.UpdateProgress(user, high, "Merging videos...", t0);
    m.UpdateProgress(user, low, "Loading videos...", t1);
    stored := m.GetProgress(user).progress;
  }

  /** The lock registry hands out one entry per user: two calls for the same
      user give the same entry, calls for different users different ones. */
  method LockPerUser(user: int, other: int)
    returns (first: Lock, second: Lock, theirs: Lock)
    requires user != other
    ensures first == second
    ensures theirs != first
  {
    var m := new UserManager();
    first := m.GetLock(user);
    second := m.GetLock(user);
    theirs := m.GetLock(other);
  }
}
