/**
 Retry attempts of the replication queue (internal/agent/memory_replicator.go): how they are
 spent, and what a drainer with an old snapshot can do to them.
 */
module ReplicationBudget {
  import opened Options
  import opened ReplicationQueue
  import opened ReplicationProtocol

  // ---------------------------------------------------------------- the retry budget, with one drainer

  function Budget(r: Row): int { MAX_ATTEMPTS - r.attempts }

  /** One drainer: a batch is fetched only after the previous one is through. */
  predicate Solo(s: State, t: Step) {
    t.Fetch? ==> forall tid <- s.tasks :: !Draining(s.tasks[tid])
  }

  ghost predicate SoloInv(s: State) {
    && (forall tid <- s.tasks, k <- s.rows :: Draining(s.tasks[tid]) && s.rows[k].id == s.tasks[tid].origin.id ==>
          s.rows[k].attempts <= s.tasks[tid].origin.attempts)
    && (forall a <- s.tasks, b <- s.tasks :: Draining(s.tasks[a]) && Draining(s.tasks[b]) && a != b ==>
          s.tasks[a].origin.id != s.tasks[b].origin.id)
  }

  lemma StepKeepsSolo(s: State, t: Step)
    requires Inv(s) && SoloInv(s) && Enabled(s, t) && Solo(s, t)
    ensures SoloInv(Take(s, t))
  {
    hide Inv, SoloInv;
    match t
    case Settle(tid, dbOk, id) => SettleKeepsSolo(s, tid, dbOk, id);
    case Fetch(batch) => FetchKeepsSolo(s, batch);
    case Enqueue(vault, space, p, id) => UpsertKeepsSolo(s, KeyOf(vault, p, space), p, id);
    case PurgeDead => PurgeKeepsSolo(s);
    case Tick(_) => SameKeepsSolo(s, Take(s, t));
    case _ => TaskStepKeepsSolo(s, t);
  }

  lemma UpsertKeepsSolo(s: State, key: Key, p: Payload, id: nat)
    requires SoloInv(s)
    ensures SoloInv(Upserted(s, key, p, id))
  {
    hide Backoff;
  }

  lemma PurgeKeepsSolo(s: State)
    requires SoloInv(s)
    ensures SoloInv(Take(s, PurgeDead))
  {
  }

  /** Nothing new is drained and the table is the same. */
  lemma SameKeepsSolo(s: State, s': State)
    requires SoloInv(s) && s'.rows == s.rows
    requires forall tid <- s'.tasks ::
               Draining(s'.tasks[tid]) ==> tid in s.tasks && s.tasks[tid].origin == s'.tasks[tid].origin
    ensures SoloInv(s')
  {
  }

  lemma TaskStepKeepsSolo(s: State, t: Step)
    requires SoloInv(s) && Enabled(s, t) && (t.Spawn? || t.NoClient? || t.Look? || t.Write? || t.Vanish?)
    ensures SoloInv(Take(s, t))
  {
    hide KeyOf, Image, Settled, Replicated, SoloInv;
    SameKeepsSolo(s, Take(s, t));
  }

  lemma FetchKeepsSolo(s: State, batch: map<nat, Key>)
    requires Inv(s) && Enabled(s, Fetch(batch)) && Solo(s, Fetch(batch))
    ensures SoloInv(Take(s, Fetch(batch)))
  {
    var s' := Take(s, Fetch(batch));
    assert forall tid <- s'.tasks ::
             Draining(s'.tasks[tid]) ==> tid in batch && s'.tasks[tid].origin.id == s.rows[batch[tid]].id;
  }

  lemma SettleKeepsSolo(s: State, tid: nat, dbOk: bool, id: nat)
    requires Inv(s) && SoloInv(s) && Enabled(s, Settle(tid, dbOk, id))
    ensures SoloInv(Take(s, Settle(tid, dbOk, id)))
  {
    hide Inv, SoloInv, KeyOf, Backoff, FreshId;
    var t, s' := s.tasks[tid], Take(s, Settle(tid, dbOk, id));
    forall k <- s'.rows
      ensures AttemptsKept(s, s', t, k)
    {
      if dbOk && t.stage.Failed? && Draining(t) {
        assert s'.rows == MarkFailed(s.rows, t.origin.id, t.origin.attempts, s.now);
      }
    }
    SoloFrame(s, s', tid);
  }

  /** Row k's attempts were not raised, except by the charge of t itself. */
  predicate AttemptsKept(s: State, s': State, t: Task, k: Key)
    requires k in s'.rows
  {
    || s'.rows[k].attempts == 0
    || (&& k in s.rows && s'.rows[k].id == s.rows[k].id
        && (s'.rows[k].attempts == s.rows[k].attempts || (Draining(t) && s'.rows[k].id == t.origin.id)))
  }

  lemma SoloFrame(s: State, s': State, tid: nat)
    requires SoloInv(s) && tid in s.tasks && s'.tasks == s.tasks - {tid}
    requires forall k <- s'.rows :: AttemptsKept(s, s', s.tasks[tid], k)
    ensures SoloInv(s')
  {
    assert forall a <- s'.tasks :: a in s.tasks && a != tid && s'.tasks[a] == s.tasks[a];
    forall a <- s'.tasks, k <- s'.rows | Draining(s'.tasks[a]) && s'.rows[k].id == s'.tasks[a].origin.id
      ensures s'.rows[k].attempts <= s'.tasks[a].origin.attempts
    {
      assert AttemptsKept(s, s', s.tasks[tid], k);
    }
  }

  /**
   What a failed drain does to the row it hits, with any number of drainers: it spends
   budget exactly if the row has no more attempts than the drainer's snapshot, and gives
   some back exactly if it has at least two more. It hits the row with the id of the
   snapshot, and that is another memory's row exactly if the id was used again.
   */
  lemma ChargeIff(s: State, tid: nat, id: nat, k: Key)
    requires Inv(s) && Enabled(s, Settle(tid, true, id)) && s.tasks[tid].stage.Failed? && Draining(s.tasks[tid])
        && k in s.rows
    ensures var t, s' := s.tasks[tid], Take(s, Settle(tid, true, id));
            && k in s'.rows
            && (s'.rows[k] != s.rows[k] ==> s.rows[k].id == t.origin.id)
            && (s.rows[k].id == t.origin.id ==>
                  && (Budget(s'.rows[k]) < Budget(s.rows[k]) <==> s.rows[k].attempts <= t.origin.attempts)
                  && (Budget(s'.rows[k]) > Budget(s.rows[k]) <==> s.rows[k].attempts >= t.origin.attempts + 2)
                  && (k != t.origin.key <==> t.origin.key !in s.rows || s.rows[t.origin.key].id != t.origin.id))
  {
    hide KeyOf, TaskOk, Accounted;
    assert TaskOk(s, s.tasks[tid]);
  }

  /**
   With one drainer a failed drain spends part of the budget of the row it hits, never of a
   dead one, and touches no other.
   */
  lemma FailedDrainSpendsBudget(s: State, tid: nat, id: nat)
    requires Inv(s) && SoloInv(s) && Enabled(s, Settle(tid, true, id))
    requires s.tasks[tid].stage.Failed? && Draining(s.tasks[tid])
    ensures var s' := Take(s, Settle(tid, true, id));
            s'.rows.Keys == s.rows.Keys
            && forall k <- s.rows :: if s.rows[k].id == s.tasks[tid].origin.id
                                     then !s.rows[k].dead && Budget(s'.rows[k]) < Budget(s.rows[k])
                                     else s'.rows[k] == s.rows[k]
  {
    var t := s.tasks[tid];
    assert TaskOk(s, t);
  }

  /** With one drainer a row's budget rises only when an upsert revives it from the dead. */
  lemma OnlyRevivalRefills(s: State, t: Step, k: Key)
    requires Inv(s) && SoloInv(s) && Enabled(s, t) && Solo(s, t)
    requires k in s.rows && k in Take(s, t).rows && Budget(Take(s, t).rows[k]) > Budget(s.rows[k])
    ensures s.rows[k].dead && !Take(s, t).rows[k].dead && Budget(Take(s, t).rows[k]) == MAX_ATTEMPTS
    ensures (t.Enqueue? && k == KeyOf(t.vault, t.payload, t.space))
         || (t.Settle? && s.tasks[t.tid].origin.FanOut? && k == TaskKey(s.tasks[t.tid]))
  {
    hide KeyOf, SoloInv, Accounted;
    if t.Settle? && t.dbOk && s.tasks[t.tid].stage.Failed? && Draining(s.tasks[t.tid]) {
      FailedDrainSpendsBudget(s, t.tid, t.id);
    }
  }

  /**
   A pending row's next try moves only when a failed drain charges it, and then by the wait of
   its attempt; writes of newer contents neither delay nor hasten it.
   */
  lemma OnlyChargesDelay(s: State, t: Step, k: Key)
    requires Inv(s) && Enabled(s, t) && k in s.rows && !s.rows[k].dead && k in Take(s, t).rows
    ensures Take(s, t).rows[k].nextRetry != s.rows[k].nextRetry ==>
              && t.Settle? && t.dbOk && s.tasks[t.tid].stage.Failed? && Draining(s.tasks[t.tid])
              && s.rows[k].id == s.tasks[t.tid].origin.id && s.tasks[t.tid].origin.attempts < 5
              && Take(s, t).rows[k].nextRetry == s.now + [5, 30, 120, 600, 3600][s.tasks[t.tid].origin.attempts]
  {
    hide KeyOf, LedgerOk, TableOk, FreshId, Image;
    if t.Settle? && t.dbOk && s.tasks[t.tid].stage.Failed? && Draining(s.tasks[t.tid]) {
      assert TaskOk(s, s.tasks[t.tid]);
      BackoffGrows(s.tasks[t.tid].origin.attempts);
    }
  }

  /**
   A first push is over only by its last statement, unless its goroutine vanishes. If it
   failed, and the database takes that statement, the memory is queued with all its attempts
   left to a new or revived row, and with this content in any case.
   */
  lemma FailedFanOutIsQueued(s: State, t: Step, tid: nat)
    requires Inv(s) && Enabled(s, t) && tid in s.tasks && !Draining(s.tasks[tid]) && tid !in Take(s, t).tasks
    ensures t == Vanish(tid) || (t.Settle? && t.tid == tid)
    ensures var task, k, s' := s.tasks[tid], TaskKey(s.tasks[tid]), Take(s, t);
            t.Settle? && t.dbOk && task.stage.Failed? ==>
              && k in s'.rows && !s'.rows[k].dead && s'.rows[k].payload == task.payload
              && (k !in s.rows || s.rows[k].dead ==> s'.rows[k].attempts == 0 && s'.rows[k].nextRetry == s.now + 5)
  {
    hide KeyOf, LedgerOk, TableOk, FreshId, Image;
  }

  predicate AllSolo(s: State, steps: seq<Step>)
    requires Run(s, steps).Some?
    decreases |steps|
  {
    steps != [] ==> Solo(s, steps[0]) && AllSolo(Take(s, steps[0]), steps[1..])
  }

  lemma {:induction false} RunKeepsSolo(s: State, steps: seq<Step>)
    requires Inv(s) && SoloInv(s) && Run(s, steps).Some? && AllSolo(s, steps)
    ensures Inv(Run(s, steps).value) && SoloInv(Run(s, steps).value)
    decreases |steps|
  {
    if steps != [] {
      StepKeepsInv(s, steps[0]);
      StepKeepsSolo(s, steps[0]);
      RunKeepsSolo(Take(s, steps[0]), steps[1..]);
    }
  }

  lemma StartIsSolo(now: int)
    ensures Inv(Start(now)) && SoloInv(Start(now))
  {
  }

  /** In every run with one drainer, the next failed drain spends budget. */
  lemma SoloDrainsSpend(now: int, steps: seq<Step>, s: State, tid: nat, id: nat, k: Key)
    requires Run(Start(now), steps) == Some(s) && AllSolo(Start(now), steps)
    requires Enabled(s, Settle(tid, true, id)) && s.tasks[tid].stage.Failed? && Draining(s.tasks[tid])
    requires k in s.rows && s.rows[k].id == s.tasks[tid].origin.id
    ensures k in Take(s, Settle(tid, true, id)).rows
    ensures 0 <= Budget(Take(s, Settle(tid, true, id)).rows[k]) < Budget(s.rows[k])
  {
    hide Run, AllSolo, SoloInv, KeyOf;
    StartIsSolo(now);
    RunKeepsSolo(Start(now), steps);
    FailedDrainSpendsBudget(s, tid, id);
    StepKeepsInv(s, Settle(tid, true, id));
  }

  // ---------------------------------------------------------------- and with two drainers

  lemma {:induction false} RunConcat(s: State, a: seq<Step>, b: seq<Step>)
    requires Run(s, a).Some?
    ensures Run(s, a + b) == Run(Run(s, a).value, b)
    decreases |a|
  {
    if a == [] {
      assert a + b == b;
    } else {
      assert (a + b)[1..] == a[1..] + b;
      RunConcat(Take(s, a[0]), a[1..], b);
    }
  }

  /** One row in the queue, task 1 holding an old snapshot of it. */
  function OneRow(k: Key, p: Payload, attempts: nat, nextRetry: int, t: Task, now: int): State {
    State(map[k := Row(1, p, false, attempts, nextRetry, 0)], {}, map[1 := t], map[k := p], {}, map[], now)
  }

  lemma RunFirst(s: State, t: Step, s': State, rest: seq<Step>)
    requires Enabled(s, t) && Take(s, t) == s'
    ensures Run(s, [t] + rest) == Run(s', rest)
  {
    assert ([t] + rest)[1..] == rest;
  }

  function Mine(k: Key, p: Payload, a: nat, stage: Stage): Task { Task(k.vault, k.space, p, Drain(1, a, k), stage) }

  lemma ChargeSteps(k: Key, p: Payload, a: nat, n: int, t: Task)
    requires k == KeyOf(k.vault, p, k.space) && a < MAX_ATTEMPTS - 1
    ensures var s := OneRow(k, p, a, n, t, n);
            var s1, s2 := s.(tasks := s.tasks[0 := Mine(k, p, a, Looking)]),
                s.(tasks := s.tasks[0 := Mine(k, p, a, Failed)]);
            && Enabled(s, Fetch(map[0 := k])) && Take(s, Fetch(map[0 := k])) == s1
            && Enabled(s1, NoClient(0)) && Take(s1, NoClient(0)) == s2
            && Enabled(s2, Settle(0, true, 2))
                && Take(s2, Settle(0, true, 2)) == OneRow(k, p, a + 1, n + Backoff(a + 1), t, n)
  {
    hide KeyOf, Backoff, Enabled, Take;
    ChargeFetched(k, p, a, n, t);
    ChargeSettled(k, p, a, n, t);
  }

  lemma ChargeFetched(k: Key, p: Payload, a: nat, n: int, t: Task)
    requires a < MAX_ATTEMPTS - 1
    ensures var s := OneRow(k, p, a, n, t, n);
            var s1, s2 := s.(tasks := s.tasks[0 := Mine(k, p, a, Looking)]),
                s.(tasks := s.tasks[0 := Mine(k, p, a, Failed)]);
            && Enabled(s, Fetch(map[0 := k])) && Take(s, Fetch(map[0 := k])) == s1
            && Enabled(s1, NoClient(0)) && Take(s1, NoClient(0)) == s2
  {
    hide KeyOf, Backoff, Settled;
    var s := OneRow(k, p, a, n, t, n);
    assert s.tasks[0 := Mine(k, p, a, Looking)] == s.tasks + map[0 := Mine(k, p, a, Looking)];
  }

  lemma ChargeSettled(k: Key, p: Payload, a: nat, n: int, t: Task)
    requires k == KeyOf(k.vault, p, k.space) && a < MAX_ATTEMPTS - 1
    ensures var s := OneRow(k, p, a, n, t, n);
            var s2 := s.(tasks := s.tasks[0 := Mine(k, p, a, Failed)]);
            Enabled(s2, Settle(0, true, 2)) && Take(s2, Settle(0, true, 2))
                == OneRow(k, p, a + 1, n + Backoff(a + 1), t, n)
  {
    hide KeyOf, Backoff;
    var s := OneRow(k, p, a, n, t, n);
    var s2 := s.(tasks := s.tasks[0 := Mine(k, p, a, Failed)]);
    assert s2.tasks - {0} == s.tasks;
    assert MarkFailed(s.rows, 1, a, n) == map[k := Row(1, p, false, a + 1, n + Backoff(a + 1), 0)];
  }

  function Charge(k: Key, n: int): seq<Step> {
    [Tick(n)] + ([Fetch(map[0 := k])] + ([NoClient(0)] + ([Settle(0, true, 2)] + [])))
  }

  /** Another drainer, as task 0, waits for the row, fails to connect and charges it. */
  lemma ChargeRound(k: Key, p: Payload, a: nat, n: int, t: Task, now: int)
    requires k == KeyOf(k.vault, p, k.space) && a < MAX_ATTEMPTS - 1 && now <= n
    ensures Run(OneRow(k, p, a, n, t, now), Charge(k, n)) == Some(OneRow(k, p, a + 1, n + Backoff(a + 1), t, n))
  {
    var s := OneRow(k, p, a, n, t, n);
    var s1, s2 := s.(tasks := s.tasks[0 := Mine(k, p, a, Looking)]), s.(tasks := s.tasks[0 := Mine(k, p, a, Failed)]);
    ChargeSteps(k, p, a, n, t);
    RunFirst(s2, Settle(0, true, 2), OneRow(k, p, a + 1, n + Backoff(a + 1), t, n), []);
    RunFirst(s1, NoClient(0), s2, [Settle(0, true, 2)] + []);
    RunFirst(s, Fetch(map[0 := k]), s1, [NoClient(0)] + ([Settle(0, true, 2)] + []));
    RunFirst(OneRow(k, p, a, n, t, now), Tick(n), s,
        [Fetch(map[0 := k])] + ([NoClient(0)] + ([Settle(0, true, 2)] + [])));
  }

  function Snapshot(k: Key, p: Payload): seq<Step> {
    [Enqueue(k.vault, k.space, p, 1)] + ([Tick(5)] + ([Fetch(map[1 := k])] + ([NoClient(1)] + [])))
  }

  /** Task 1 fetches the new row and connects to nothing. */
  lemma StaleSnapshot(k: Key, p: Payload)
    requires k == KeyOf(k.vault, p, k.space)
    ensures Run(Start(0), Snapshot(k, p)) == Some(OneRow(k, p, 0, 5, Mine(k, p, 0, Failed), 5))
  {
    var s1 := State(map[k := Row(1, p, false, 0, 5, 0)], {}, map[], map[k := p], {}, map[], 0);
    var s2 := s1.(now := 5);
    var s3 := OneRow(k, p, 0, 5, Mine(k, p, 0, Looking), 5);
    var s4 := OneRow(k, p, 0, 5, Mine(k, p, 0, Failed), 5);
    assert s3.tasks[1 := Mine(k, p, 0, Failed)] == s4.tasks;
    assert s2.tasks + map[1 := Mine(k, p, 0, Looking)] == s3.tasks;
    assert Take(s2, Fetch(map[1 := k])).tasks == s3.tasks;
    RunFirst(s3, NoClient(1), s4, []);
    RunFirst(s2, Fetch(map[1 := k]), s3, [NoClient(1)] + []);
    RunFirst(s1, Tick(5), s2, [Fetch(map[1 := k])] + ([NoClient(1)] + []));
    RunFirst(Start(0), Enqueue(k.vault, k.space, p, 1), s1, [Tick(5)] + ([Fetch(map[1 := k])] + ([NoClient(1)] + [])));
  }

  lemma StaleRun(k: Key, p: Payload)
    requires k == KeyOf(k.vault, p, k.space)
    ensures Run(Start(0), Snapshot(k, p) + (Charge(k, 5) + Charge(k, 10)))
        == Some(OneRow(k, p, 2, 40, Mine(k, p, 0, Failed), 10))
  {
    hide Run, Charge, Snapshot, OneRow, Mine, Enabled, Take, KeyOf;
    var t := Mine(k, p, 0, Failed);
    StaleSnapshot(k, p);
    ChargeRound(k, p, 0, 5, t, 5);
    ChargeRound(k, p, 1, 10, t, 5);
    RunConcat(OneRow(k, p, 0, 5, t, 5), Charge(k, 5), Charge(k, 10));
    RunConcat(Start(0), Snapshot(k, p), Charge(k, 5) + Charge(k, 10));
  }

  /**
   Without that restriction a stale charge can give attempts back: for any memory there is
   a run with two drainers after which a failed drain raises its row's budget.
   */
  lemma StaleDrainerRefunds(k: Key, p: Payload) returns (steps: seq<Step>, s: State)
    requires k == KeyOf(k.vault, p, k.space)
    ensures Run(Start(0), steps) == Some(s)
    ensures Enabled(s, Settle(1, true, 2)) && s.tasks[1].stage.Failed? && Draining(s.tasks[1])
    ensures k in s.rows && k in Take(s, Settle(1, true, 2)).rows
    ensures Budget(Take(s, Settle(1, true, 2)).rows[k]) > Budget(s.rows[k])
  {
    StaleRun(k, p);
    steps, s := Snapshot(k, p) + (Charge(k, 5) + Charge(k, 10)), OneRow(k, p, 2, 40, Mine(k, p, 0, Failed), 10);
    assert Settled(s, s.tasks[1], true, 2).rows == MarkFailed(s.rows, 1, 0, 10);
  }
}
