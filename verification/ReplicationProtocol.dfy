/**
 The replication queue under concurrency (internal/agent/memory_replicator.go): interceptors
 enqueue, fan-out goroutines and any number of drainers push, rows are dequeued, charged,
 revived and purged, and any goroutine may vanish between two of its actions.
 */
module ReplicationProtocol {
  import opened Options
  import opened ReplicationQueue
  import Slug

  /** A drainer works from the snapshot it selected. */
  datatype Origin = FanOut | Drain(id: nat, attempts: nat, key: Key)

  /** Why a push counts as delivered: the find came back with content, or the write without an error, kept or not. */
  datatype Ack = ByFind | ByWrite(stored: bool)

  datatype Stage = Looking | Writing | Delivered(ack: Ack) | Failed

  /** One `replicateTo` in flight. */
  datatype Task = Task(vault: string, space: string, payload: Payload, origin: Origin, stage: Stage)

  datatype State = State(
    rows: Table,
    replicas: Replicas,
    tasks: map<nat, Task>,
    newest: map<Key, Payload>,      // history: what was last enqueued under each key
    purged: set<Key>,               // history: keys whose dead row was purged since their last upsert
    settled: map<Key, Ack>,         // history: keys dequeued as delivered since their last upsert, and why
    now: int)

  datatype Step =
    | Enqueue(vault: string, space: string, payload: Payload, id: nat)
    | Spawn(tid: nat, vault: string, space: string, payload: Payload)
    | Fetch(batch: map<nat, Key>)
    | NoClient(tid: nat)
    | Look(tid: nat, answer: CallResult)
    | Write(tid: nat, answer: CallResult, stored: bool)
    | Settle(tid: nat, dbOk: bool, id: nat)
    | Vanish(tid: nat)
    | PurgeDead
    | Tick(to: int)

  function Start(now: int): State { State(map[], {}, map[], map[], {}, map[], now) }

  predicate FreshId(rows: Table, id: nat) { forall k <- rows :: rows[k].id != id }

  predicate Draining(t: Task) { t.origin.Drain? }

  predicate Enabled(s: State, t: Step) {
    match t
    case Enqueue(_, _, _, id) => FreshId(s.rows, id)
    case Spawn(tid, _, _, _) => tid !in s.tasks
    case Fetch(batch) =>
      && (forall tid <- batch :: tid !in s.tasks && batch[tid] in s.rows && Due(s.rows[batch[tid]], s.now))
      && (forall a <- batch, b <- batch :: batch[a] == batch[b] ==> a == b)
    case NoClient(tid) => tid in s.tasks && s.tasks[tid].stage.Looking?
    case Look(tid, _) => tid in s.tasks && s.tasks[tid].stage.Looking?
    case Write(tid, _, _) => tid in s.tasks && s.tasks[tid].stage.Writing?
    case Settle(tid, _, id) => tid in s.tasks && (s.tasks[tid].stage.Delivered? || s.tasks[tid].stage.Failed?)
        && FreshId(s.rows, id)
    case Vanish(tid) => tid in s.tasks
    case PurgeDead => true
    case Tick(to) => s.now <= to
  }

  function To(s: State, tid: nat, stage: Stage): State
    requires tid in s.tasks
  {
    s.(tasks := s.tasks[tid := s.tasks[tid].(stage := stage)])
  }

  /** The memory a task sends. */
  function Image(t: Task): Replica { Replica(t.vault, TaskKey(t).concept, t.payload) }

  function Upserted(s: State, key: Key, p: Payload, id: nat): State {
    s.(rows := Upsert(s.rows, key, p, id, s.now), newest := s.newest[key := p], purged := s.purged - {key},
       settled := s.settled - {key})
  }

  function TaskKey(t: Task): Key { KeyOf(t.vault, t.payload, t.space) }

  function Take(s: State, t: Step): State
    requires Enabled(s, t)
  {
    match t
    case Enqueue(vault, space, p, id) => Upserted(s, KeyOf(vault, p, space), p, id)
    case Spawn(tid, vault, space, p) => s.(tasks := s.tasks[tid := Task(vault, space, p, FanOut, Looking)])
    case Fetch(batch) =>
      s.(tasks := s.tasks + map tid | tid in batch ::
           var k, r := batch[tid], s.rows[batch[tid]];
           Task(k.vault, k.space, r.payload, Drain(r.id, r.attempts, k), Looking))
    case NoClient(tid) => To(s, tid, Failed)
    case Look(tid, answer) => if TakenAsFound(answer) then To(s, tid, Delivered(ByFind)) else To(s, tid, Writing)
    case Write(tid, answer, stored) =>
      var s' := if stored then s.(replicas := s.replicas + {Image(s.tasks[tid])}) else s;
      if TakenAsStored(answer) then To(s', tid, Delivered(ByWrite(stored))) else To(s', tid, Failed)
    case Settle(tid, dbOk, id) => Settled(s, s.tasks[tid], dbOk, id).(tasks := s.tasks - {tid})
    case Vanish(tid) => s.(tasks := s.tasks - {tid})
    case PurgeDead =>
      s.(rows := Purge(s.rows, s.now), purged := s.purged + set k | k in s.rows && Purgeable(s.rows[k], s.now))
    case Tick(to) => s.(now := to)
  }

  /** The DELETE by key, remembering why if there was a row. */
  function Dropped(s: State, k: Key, ack: Ack): State {
    if k in s.rows then s.(rows := s.rows - {k}, settled := s.settled[k := ack]) else s
  }

  /** The last database statement of a push: dequeue, requeue (fan-out) or charge an attempt (drain). */
  function Settled(s: State, t: Task, dbOk: bool, id: nat): State {
    if !dbOk then s
    else if t.stage.Delivered? then Dropped(s, TaskKey(t), t.stage.ack)
    else match t.origin
      case FanOut => Upserted(s, TaskKey(t), t.payload, id)
      case Drain(rowId, attempts, _) => s.(rows := MarkFailed(s.rows, rowId, attempts, s.now))
  }

  // ---------------------------------------------------------------- invariant

  /** Since its last upsert the row is in exactly one way: still queued, or purged dead, or dequeued as delivered. */
  predicate Accounted(s: State, k: Key) {
    && (k in s.rows || k in s.purged || k in s.settled)
    && (k in s.settled ==> k !in s.rows && k !in s.purged)
  }

  predicate TaskOk(s: State, t: Task) {
    && (t.stage == Delivered(ByWrite(true)) ==> Image(t) in s.replicas)
    && (Draining(t) ==> t.origin.attempts < MAX_ATTEMPTS && t.origin.key == TaskKey(t))
  }

  /** What was dequeued after a write the vault kept is there. */
  predicate SettledOk(s: State, k: Key)
    requires k in s.settled
  {
    k in s.newest && (s.settled[k] == ByWrite(true) ==> Replicated(s.replicas, k))
  }

  /** A queued row carries what was last enqueued under its key, and waits an hour at most. */
  predicate RowOk(s: State, k: Key)
    requires k in s.rows
  {
    && k in s.newest && s.rows[k].payload == s.newest[k] && k !in s.purged
    && (!s.rows[k].dead ==> s.rows[k].nextRetry <= s.now + 3600)
  }

  ghost predicate Inv(s: State) {
    && TableOk(s.rows)
    && (forall tid <- s.tasks :: TaskOk(s, s.tasks[tid]))
    && LedgerOk(s)
  }

  /** Queue and history agree on every key. */
  ghost predicate LedgerOk(s: State) {
    && (forall k <- s.newest :: Accounted(s, k))
    && (forall k <- s.rows :: RowOk(s, k))
    && (forall k <- s.settled :: SettledOk(s, k))
    && s.purged <= s.newest.Keys
  }

  lemma {:induction false} StepKeepsInv(s: State, t: Step)
    requires Inv(s) && Enabled(s, t)
    ensures Inv(Take(s, t))
  {
    hide Inv;
    match t
    case Settle(tid, dbOk, id) => SettleKeepsInv(s, tid, dbOk, id);
    case Enqueue(vault, space, p, id) => UpsertKeepsInv(s, KeyOf(vault, p, space), p, id);
    case PurgeDead => PurgeKeepsInv(s);
    case Tick(to) => TickKeepsInv(s, to);
    case Fetch(batch) => FetchKeepsInv(s, batch);
    case _ => TaskStepKeepsInv(s, t);
  }

  /** Steps that leave the table alone, and only add to what is stored, keep all but the tasks as they are. */
  lemma TasksKeepInv(s: State, s': State)
    requires Inv(s) && s'.rows == s.rows && s'.newest == s.newest && s'.purged == s.purged && s'.now == s.now
    requires s'.settled == s.settled && s.replicas <= s'.replicas
    requires forall tid <- s'.tasks :: TaskOk(s', s'.tasks[tid])
    ensures Inv(s')
  {
    hide KeyOf, TableOk, TaskOk;
    assert LedgerOk(s);
  }

  lemma SameTaskOk(s: State, s': State, t: Task)
    requires TaskOk(s, t) && s.replicas <= s'.replicas
    ensures TaskOk(s', t)
  {
  }

  lemma FetchKeepsInv(s: State, batch: map<nat, Key>)
    requires Inv(s) && Enabled(s, Fetch(batch))
    ensures Inv(Take(s, Fetch(batch)))
  {
    hide KeyOf, Backoff, FreshId, Image, Accounted;
    var s' := Take(s, Fetch(batch));
    forall tid <- s'.tasks
      ensures TaskOk(s', s'.tasks[tid])
    {
      if tid in batch {
        assert RowOk(s, batch[tid]) && StatusOk(s.rows[batch[tid]]);
      } else {
        assert TaskOk(s, s.tasks[tid]);
      }
    }
    TasksKeepInv(s, s');
  }

  /** A task moves on, and the vault may have kept something. */
  lemma MoveKeepsInv(s: State, replicas: Replicas, tid: nat, stage: Stage)
    requires Inv(s) && tid in s.tasks && s.replicas <= replicas
    requires stage == Delivered(ByWrite(true)) ==> Image(s.tasks[tid]) in replicas
    ensures Inv(To(s.(replicas := replicas), tid, stage))
  {
    hide KeyOf, TableOk, LedgerOk, Slug.Normalize;
    var s' := To(s.(replicas := replicas), tid, stage);
    forall id <- s'.tasks
      ensures TaskOk(s', s'.tasks[id])
    {
      assert TaskOk(s, s.tasks[id]);
    }
    TasksKeepInv(s, s');
  }

  lemma SpawnKeepsInv(s: State, tid: nat, t: Task)
    requires Inv(s) && TaskOk(s, t)
    ensures Inv(s.(tasks := s.tasks[tid := t]))
  {
    hide KeyOf, TableOk, LedgerOk;
    var s' := s.(tasks := s.tasks[tid := t]);
    forall id <- s'.tasks
      ensures TaskOk(s', s'.tasks[id])
    {
      SameTaskOk(s, s', s'.tasks[id]);
    }
    TasksKeepInv(s, s');
  }

  /** Steps that touch only tasks and replicas. */
  lemma TaskStepKeepsInv(s: State, t: Step)
    requires Inv(s) && Enabled(s, t) && (t.Spawn? || t.NoClient? || t.Look? || t.Write? || t.Vanish?)
    ensures Inv(Take(s, t))
  {
    hide Inv, KeyOf, FreshId, Image;
    match t
    case Spawn(tid, vault, space, p) => SpawnKeepsInv(s, tid, Task(vault, space, p, FanOut, Looking));
    case Vanish(tid) => ForgetKeepsInv(s, tid);
    case Write(tid, answer, stored) =>
      var replicas := if stored then s.replicas + {Image(s.tasks[tid])} else s.replicas;
      MoveKeepsInv(s, replicas, tid, if TakenAsStored(answer) then Delivered(ByWrite(stored)) else Failed);
    case Look(tid, answer) =>
      MoveKeepsInv(s, s.replicas, tid, if TakenAsFound(answer) then Delivered(ByFind) else Writing);
    case NoClient(tid) => MoveKeepsInv(s, s.replicas, tid, Failed);
    case _ =>
  }

  lemma PurgeKeepsInv(s: State)
    requires Inv(s)
    ensures Inv(Take(s, PurgeDead))
  {
    hide KeyOf, Backoff, StatusOk;
  }

  lemma TickKeepsInv(s: State, to: int)
    requires Inv(s) && s.now <= to
    ensures Inv(Take(s, Tick(to)))
  {
    hide KeyOf, Backoff, TableOk;
  }

  lemma UpsertKeepsInv(s: State, key: Key, p: Payload, id: nat)
    requires Inv(s) && FreshId(s.rows, id) && key == KeyOf(key.vault, p, key.space)
    ensures Inv(Upserted(s, key, p, id))
  {
    hide KeyOf, TableOk, LedgerOk;
    UpsertKeepsTable(s.rows, key, p, id, s.now);
    UpsertKeepsLedger(s, key, p, id);
  }

  lemma UpsertKeepsLedger(s: State, key: Key, p: Payload, id: nat)
    requires LedgerOk(s)
    ensures LedgerOk(Upserted(s, key, p, id))
  {
    hide KeyOf, Replicated;
    var s' := Upserted(s, key, p, id);
    forall k <- s'.rows
      ensures RowOk(s', k)
    {
      assert k in s.rows ==> RowOk(s, k);
    }
    forall k <- s'.newest
      ensures Accounted(s', k)
    {
      assert k != key ==> Accounted(s, k);
    }
  }

  /** A stale charge may hit any row with that id, even a reused one, and still leaves a proper row. */
  lemma ChargeKeepsTable(rows: Table, id: nat, attempts: nat, now: int)
    requires TableOk(rows) && attempts < MAX_ATTEMPTS
    ensures TableOk(MarkFailed(rows, id, attempts, now))
  {
    hide KeyOf, Backoff;
  }

  lemma SettleKeepsInv(s: State, tid: nat, dbOk: bool, id: nat)
    requires Inv(s) && Enabled(s, Settle(tid, dbOk, id))
    ensures Inv(Take(s, Settle(tid, dbOk, id)))
  {
    hide KeyOf, Upsert, MarkFailed, TableOk, Replicated, LedgerOk;
    var t := s.tasks[tid];
    if dbOk && t.stage.Delivered? {
      if t.stage.ack == ByWrite(true) {
        KeptIsReplicated(s, t);
      }
      DropKeepsInv(s, TaskKey(t), t.stage.ack);
      ForgetKeepsInv(Dropped(s, TaskKey(t), t.stage.ack), tid);
    } else if dbOk && t.origin.FanOut? {
      TaskKeyIs(t);
      UpsertKeepsInv(s, TaskKey(t), t.payload, id);
      ForgetKeepsInv(Upserted(s, TaskKey(t), t.payload, id), tid);
    } else if dbOk {
      ChargeKeepsInv(s, t.origin.id, t.origin.attempts);
      ForgetKeepsInv(s.(rows := MarkFailed(s.rows, t.origin.id, t.origin.attempts, s.now)), tid);
    } else {
      ForgetKeepsInv(s, tid);
    }
  }

  lemma TaskKeyIs(t: Task)
    ensures TaskKey(t) == KeyOf(TaskKey(t).vault, t.payload, TaskKey(t).space)
    ensures TaskKey(t).vault == t.vault
  {
    hide Slug.Normalize;
  }

  lemma DropKeepsInv(s: State, k: Key, ack: Ack)
    requires Inv(s) && (ack == ByWrite(true) ==> Replicated(s.replicas, k))
    ensures Inv(Dropped(s, k, ack))
  {
    hide KeyOf, TableOk, TaskOk, Replicated, LedgerOk;
    if k in s.rows {
      var s' := Dropped(s, k, ack);
      DropKeepsTable(s.rows, k);
      DropKeepsLedger(s, k, ack);
      forall tid <- s'.tasks
        ensures TaskOk(s', s'.tasks[tid])
      {
        SameTaskOk(s, s', s.tasks[tid]);
      }
    }
  }

  lemma DropKeepsLedger(s: State, k: Key, ack: Ack)
    requires LedgerOk(s) && k in s.rows && (ack == ByWrite(true) ==> Replicated(s.replicas, k))
    ensures LedgerOk(Dropped(s, k, ack))
  {
    hide Replicated;
    assert RowOk(s, k) && Accounted(s, k);
  }

  lemma DropKeepsTable(rows: Table, k: Key)
    requires TableOk(rows)
    ensures TableOk(rows - {k})
  {
    hide KeyOf, StatusOk;
  }

  /** What a kept write sent is stored under the task's key. */
  lemma KeptIsReplicated(s: State, t: Task)
    requires TaskOk(s, t) && t.stage == Delivered(ByWrite(true))
    ensures Replicated(s.replicas, TaskKey(t))
  {
    hide Slug.Normalize;
    assert Image(t).vault == TaskKey(t).vault && Image(t).concept == TaskKey(t).concept;
  }

  lemma ChargeKeepsInv(s: State, id: nat, attempts: nat)
    requires Inv(s) && attempts < MAX_ATTEMPTS
    ensures Inv(s.(rows := MarkFailed(s.rows, id, attempts, s.now)))
  {
    hide KeyOf, TableOk;
    ChargeKeepsTable(s.rows, id, attempts, s.now);
  }

  lemma ForgetKeepsInv(s: State, tid: nat)
    requires Inv(s)
    ensures Inv(s.(tasks := s.tasks - {tid}))
  {
    hide TableOk, KeyOf;
  }

  function Run(s: State, steps: seq<Step>): Option<State>
    decreases |steps|
  {
    if steps == [] then Some(s)
    else if Enabled(s, steps[0]) then Run(Take(s, steps[0]), steps[1..])
    else None
  }

  lemma {:induction false} RunKeepsInv(s: State, steps: seq<Step>)
    requires Inv(s) && Run(s, steps).Some?
    ensures Inv(Run(s, steps).value)
    decreases |steps|
  {
    if steps != [] {
      StepKeepsInv(s, steps[0]);
      RunKeepsInv(Take(s, steps[0]), steps[1..]);
    }
  }

  /**
   In every reachable state, whatever the vaults answer, everything ever enqueued is, since
   its last upsert, in exactly one of three places: still queued with its newest content,
   purged dead, or dequeued as delivered, by a find that came back with content or a write
   that came back without a transport error. After a write the vault kept, it holds something.
   */
  lemma NothingLost(now: int, steps: seq<Step>, s: State)
    requires Run(Start(now), steps) == Some(s)
    ensures s.newest.Keys == s.rows.Keys + s.purged + s.settled.Keys
    ensures s.rows.Keys !! s.purged !! s.settled.Keys
    ensures forall k <- s.settled :: s.settled[k] == ByWrite(true) ==> Replicated(s.replicas, k)
    ensures forall k <- s.rows :: s.rows[k].payload == s.newest[k]
    ensures forall k <- s.rows :: k == KeyOf(k.vault, s.rows[k].payload, k.space)
    ensures forall k <- s.rows ::
              if s.rows[k].dead then s.rows[k].attempts == MAX_ATTEMPTS else s.rows[k].attempts < MAX_ATTEMPTS
    ensures forall k <- s.rows :: !s.rows[k].dead ==> Due(s.rows[k], s.now + 3600)
  {
    hide KeyOf, Replicated;
    RunKeepsInv(Start(now), steps);
    assert forall k <- s.rows :: RowOk(s, k);
    assert forall k <- s.newest :: Accounted(s, k);
    assert forall k <- s.settled :: SettledOk(s, k);
  }

  /** A drain that counts as delivered takes the very row it fetched off the queue, and no other. */
  lemma DeliveredDrainDequeues(s: State, tid: nat, id: nat)
    requires Inv(s) && Enabled(s, Settle(tid, true, id)) && s.tasks[tid].stage.Delivered? && Draining(s.tasks[tid])
    ensures Take(s, Settle(tid, true, id)).rows == s.rows - {s.tasks[tid].origin.key}
  {
  }

  // ---------------------------------------------------------------- what is really in the vault

  /**
   The vault holds what was last enqueued under the key; or, if the content does not matter,
   something under its concept.
   */
  predicate Held(s: State, k: Key, exact: bool)
    requires k in s.newest
  {
    if exact then Replica(k.vault, k.concept, s.newest[k]) in s.replicas else Replicated(s.replicas, k)
  }

  predicate Safe(s: State, k: Key, exact: bool)
    requires k in s.newest
  {
    k in s.rows || k in s.purged || Held(s, k, exact)
  }

  /** A successful dequeue of a row whose memory the vault does not hold. */
  predicate Drops(s: State, t: Step, k: Key, exact: bool)
    requires Enabled(s, t) && k in s.newest
  {
    && t.Settle? && t.dbOk && s.tasks[t.tid].stage.Delivered? && TaskKey(s.tasks[t.tid]) == k
    && k in s.rows && !Held(s, k, exact)
  }

  /** One step makes a safe memory unsafe exactly when it drops it. */
  lemma StepLosesIff(s: State, t: Step, k: Key, exact: bool)
    requires Inv(s) && Enabled(s, t) && k in s.newest && Safe(s, k, exact)
    ensures k in Take(s, t).newest
    ensures !Safe(Take(s, t), k, exact) <==> Drops(s, t, k, exact)
  {
    assert k in s.rows ==> RowOk(s, k);
    hide Inv, Enabled, Take, Safe, TaskKey, Held;
    if t.Settle? {
      SettleLosesIff(s, t.tid, t.dbOk, t.id, k, exact);
    } else {
      OthersStaySafe(s, t, k, exact);
    }
  }

  lemma OthersStaySafe(s: State, t: Step, k: Key, exact: bool)
    requires Enabled(s, t) && !t.Settle? && k in s.newest && Safe(s, k, exact)
    ensures k in Take(s, t).newest && Safe(Take(s, t), k, exact)
  {
    hide KeyOf, FreshId, Held, Upsert, Purgeable, Safe, TaskKey, Image, Due;
    match t
    case Enqueue(vault, space, p, id) => UpsertStaysSafe(s, Take(s, t), KeyOf(vault, p, space), p, id, k, exact);
    case PurgeDead => StaysSafe(s, Take(s, t), k, exact);
    case _ => SameLedgerSafe(s, Take(s, t), k, exact);
  }

  lemma SettleLosesIff(s: State, tid: nat, dbOk: bool, id: nat, k: Key, exact: bool)
    requires Enabled(s, Settle(tid, dbOk, id)) && k in s.newest && Safe(s, k, exact) && (k in s.rows ==> k !in s.purged)
    ensures k in Take(s, Settle(tid, dbOk, id)).newest
    ensures !Safe(Take(s, Settle(tid, dbOk, id)), k, exact) <==> Drops(s, Settle(tid, dbOk, id), k, exact)
  {
    hide KeyOf, FreshId, Held, Upsert, MarkFailed, Safe;
    var s', task := Take(s, Settle(tid, dbOk, id)), s.tasks[tid];
    if dbOk && task.stage.Delivered? {
      assert s'.rows == s.rows - {TaskKey(task)};
      DequeueLosesIff(s, s', TaskKey(task), k, exact);
    } else if dbOk && task.origin.FanOut? {
      UpsertStaysSafe(s, s', TaskKey(task), task.payload, id, k, exact);
    } else {
      if dbOk {
        ChargeKeepsKeys(s.rows, task.origin.id, task.origin.attempts, s.now);
      }
      StaysSafe(s, s', k, exact);
    }
  }

  lemma SameLedgerSafe(s: State, s': State, k: Key, exact: bool)
    requires k in s.newest && s'.newest == s.newest && s'.rows == s.rows && s'.purged == s.purged
    requires s.replicas <= s'.replicas && Safe(s, k, exact)
    ensures Safe(s', k, exact)
  {
    StaysSafe(s, s', k, exact);
  }

  lemma ChargeKeepsKeys(rows: Table, id: nat, attempts: nat, now: int)
    ensures MarkFailed(rows, id, attempts, now).Keys == rows.Keys
  {
  }

  lemma StaysSafe(s: State, s': State, k: Key, exact: bool)
    requires k in s.newest && k in s'.newest && s.newest[k] == s'.newest[k] && s.replicas <= s'.replicas
        && Safe(s, k, exact)
    requires (k in s.rows ==> k in s'.rows || k in s'.purged) && (k in s.purged ==> k in s'.purged)
    ensures Safe(s', k, exact)
  {
  }

  lemma UpsertStaysSafe(s: State, s': State, key: Key, p: Payload, id: nat, k: Key, exact: bool)
    requires k in s.newest && Safe(s, k, exact) && s'.replicas == s.replicas
    requires s'.rows == Upsert(s.rows, key, p, id, s.now) && s'.newest == s.newest[key := p]
        && s'.purged == s.purged - {key}
    ensures k in s'.newest && Safe(s', k, exact)
  {
    hide Held;
    if k != key {
      StaysSafe(s, s', k, exact);
    }
  }

  lemma DequeueLosesIff(s: State, s': State, key: Key, k: Key, exact: bool)
    requires k in s.newest && Safe(s, k, exact) && (k in s.rows ==> k !in s.purged)
    requires s'.rows == s.rows - {key} && s'.newest == s.newest && s'.purged == s.purged && s'.replicas == s.replicas
    ensures !Safe(s', k, exact) <==> k == key && k in s.rows && !Held(s, k, exact)
  {
  }

  // ---------------------------------------------------------------- over whole runs

  ghost predicate AllSafe(s: State, exact: bool) { forall k <- s.newest :: Safe(s, k, exact) }

  /** Every state of the run keeps every memory enqueued so far. */
  ghost predicate AlwaysSafe(s: State, steps: seq<Step>, exact: bool)
    requires Run(s, steps).Some?
    decreases |steps|
  {
    AllSafe(s, exact) && (steps != [] ==> AlwaysSafe(Take(s, steps[0]), steps[1..], exact))
  }

  ghost predicate NeverDrops(s: State, steps: seq<Step>, exact: bool)
    requires Run(s, steps).Some?
    decreases |steps|
  {
    steps != [] ==>
      && (forall k <- s.newest :: !Drops(s, steps[0], k, exact))
      && NeverDrops(Take(s, steps[0]), steps[1..], exact)
  }

  lemma StepAllSafe(s: State, t: Step, exact: bool)
    requires Inv(s) && Enabled(s, t) && AllSafe(s, exact)
    ensures AllSafe(Take(s, t), exact) <==> forall k <- s.newest :: !Drops(s, t, k, exact)
  {
    hide Inv, Enabled, Take, Safe, Drops;
    var s' := Take(s, t);
    StepKeepsInv(s, t);
    forall k <- s.newest
      ensures k in s'.newest && (!Safe(s', k, exact) <==> Drops(s, t, k, exact))
    {
      StepLosesIff(s, t, k, exact);
    }
    forall k <- s'.newest | k !in s.newest
      ensures Safe(s', k, exact)
    {
      NewIsQueued(s, t, k, exact);
    }
  }

  lemma NewIsQueued(s: State, t: Step, k: Key, exact: bool)
    requires Enabled(s, t) && k in Take(s, t).newest && k !in s.newest
    ensures Safe(Take(s, t), k, exact)
  {
    hide KeyOf, Held;
  }

  lemma {:induction false} SafeIffNeverDropped(s: State, steps: seq<Step>, exact: bool)
    requires Inv(s) && Run(s, steps).Some? && AllSafe(s, exact)
    ensures AlwaysSafe(s, steps, exact) <==> NeverDrops(s, steps, exact)
    decreases |steps|
  {
    hide Inv, Enabled, Take, AllSafe, Drops;
    if steps != [] {
      StepKeepsInv(s, steps[0]);
      StepAllSafe(s, steps[0], exact);
      if AllSafe(Take(s, steps[0]), exact) {
        SafeIffNeverDropped(Take(s, steps[0]), steps[1..], exact);
      }
    }
  }

  /**
   A run keeps every memory at every point exactly when no row is ever dequeued whose
   memory the vault does not hold; with `exact`, whose newest content it does not hold.
   */
  lemma {:induction false} RunSafeIff(now: int, steps: seq<Step>, exact: bool)
    requires Run(Start(now), steps).Some?
    ensures AlwaysSafe(Start(now), steps, exact) <==> NeverDrops(Start(now), steps, exact)
  {
    SafeIffNeverDropped(Start(now), steps, exact);
  }

  /**
   What a delivery is worth, in every reachable state. After a write the vault kept, the
   row's place is never empty, and its newest content is dropped exactly when it was
   replaced since this push began and is not in the vault either. After a find, or a write
   the vault did not keep, the dequeue drops the memory exactly when it is not there.
   */
  lemma DropIff(s: State, tid: nat, id: nat, exact: bool)
    requires Inv(s) && Enabled(s, Settle(tid, true, id)) && s.tasks[tid].stage.Delivered?
        && TaskKey(s.tasks[tid]) in s.rows
    ensures var task := s.tasks[tid]; var k := TaskKey(task); var row := s.rows[k];
            && k in s.newest
            && (Drops(s, Settle(tid, true, id), k, exact) <==>
                if exact then
                  && Replica(k.vault, k.concept, row.payload) !in s.replicas
                  && (task.stage.ack == ByWrite(true) ==> row.payload != task.payload)
                else task.stage.ack != ByWrite(true) && !Replicated(s.replicas, k))
  {
    hide TableOk, Accounted, FreshId, Slug.Normalize;
    var task := s.tasks[tid];
    var k := TaskKey(task);
    TaskKeyIs(task);
    assert RowOk(s, k) && TaskOk(s, task);
    if task.stage.ack == ByWrite(true) {
      assert Image(task) == Replica(k.vault, k.concept, task.payload) && Image(task) in s.replicas;
      assert Image(task).vault == k.vault && Image(task).concept == k.concept;
    }
  }

  // ---------------------------------------------------------------- with truthful answers

  /** The vault answers a find with content only if it holds something, and keeps what it does not refuse. */
  predicate Honest(s: State, t: Step)
    requires Enabled(s, t)
  {
    match t
    case Look(tid, answer) => TakenAsFound(answer) ==> Replicated(s.replicas, TaskKey(s.tasks[tid]))
    case Write(_, answer, stored) => TakenAsStored(answer) ==> stored
    case _ => true
  }

  predicate AllHonest(s: State, steps: seq<Step>)
    requires Run(s, steps).Some?
    decreases |steps|
  {
    steps != [] ==> Honest(s, steps[0]) && AllHonest(Take(s, steps[0]), steps[1..])
  }

  ghost predicate Backed(s: State) {
    forall tid <- s.tasks :: s.tasks[tid].stage.Delivered? ==> Replicated(s.replicas, TaskKey(s.tasks[tid]))
  }

  lemma StepKeepsBacked(s: State, t: Step)
    requires Enabled(s, t) && Honest(s, t) && Backed(s)
    ensures Backed(Take(s, t))
  {
    hide Upsert, MarkFailed, FreshId, Slug.Normalize;
    var s' := Take(s, t);
    assert s.replicas <= s'.replicas;
    forall tid <- s'.tasks | s'.tasks[tid].stage.Delivered?
      ensures Replicated(s'.replicas, TaskKey(s'.tasks[tid]))
    {
      if t.Write? && t.tid == tid {
        assert Image(s.tasks[tid]) in s'.replicas && TaskKey(s'.tasks[tid]) == TaskKey(s.tasks[tid]);
      } else if t.Look? && t.tid == tid {
        assert TaskKey(s'.tasks[tid]) == TaskKey(s.tasks[tid]);
      } else {
        assert tid in s.tasks && s'.tasks[tid] == s.tasks[tid];
      }
    }
  }

  lemma {:induction false} HonestNeverDrops(s: State, steps: seq<Step>)
    requires Inv(s) && Backed(s) && Run(s, steps).Some? && AllHonest(s, steps)
    ensures NeverDrops(s, steps, false)
    decreases |steps|
  {
    hide Inv, Enabled, Take, Honest, Backed, Held;
    if steps != [] {
      StepKeepsInv(s, steps[0]);
      StepKeepsBacked(s, steps[0]);
      HonestNeverDrops(Take(s, steps[0]), steps[1..]);
      forall k <- s.newest
        ensures !Drops(s, steps[0], k, false)
      {
        BackedHolds(s, steps[0], k);
      }
    }
  }

  lemma BackedHolds(s: State, t: Step, k: Key)
    requires Enabled(s, t) && Backed(s) && k in s.newest
    ensures !Drops(s, t, k, false)
  {
    hide Take, KeyOf;
  }

  /**
   With truthful vaults no place ever enqueued for is left empty: it is queued, purged dead, or
   something is stored there.
   */
  lemma {:induction false} HonestVaultsKeepAll(now: int, steps: seq<Step>)
    requires Run(Start(now), steps).Some? && AllHonest(Start(now), steps)
    ensures AlwaysSafe(Start(now), steps, false)
  {
    HonestNeverDrops(Start(now), steps);
    RunSafeIff(now, steps, false);
  }
}
