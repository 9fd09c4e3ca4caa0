/**
 Runs of the replication protocol that drop a memory (internal/agent/memory_replicator.go),
 with untruthful vaults and with truthful ones, and one that charges another memory's row.
 */
module ReplicationRuns {
  import opened Options
  import opened ReplicationQueue
  import opened ReplicationProtocol
  import opened ReplicationBudget
  import Slug

  /** The steps lead from s to s'. */
  predicate Leads(s: State, steps: seq<Step>, s': State) { Run(s, steps) == Some(s') }

  /** The same with truthful vaults throughout. */
  predicate LeadsHonestly(s: State, steps: seq<Step>, s': State) { Leads(s, steps, s') && AllHonest(s, steps) }

  predicate Goes(s: State, t: Step, s': State) { Enabled(s, t) && Take(s, t) == s' }

  lemma First(s: State, t: Step, s': State, rest: seq<Step>, end: State)
    requires Goes(s, t, s') && Leads(s', rest, end)
    ensures Leads(s, [t] + rest, end)
    ensures Honest(s, t) && LeadsHonestly(s', rest, end) ==> LeadsHonestly(s, [t] + rest, end)
  {
    assert ([t] + rest)[1..] == rest;
  }

  lemma {:induction false} Then(s: State, a: seq<Step>, m: State, b: seq<Step>, end: State)
    requires Leads(s, a, m) && Leads(m, b, end)
    ensures Leads(s, a + b, end)
    ensures LeadsHonestly(s, a, m) && LeadsHonestly(m, b, end) ==> LeadsHonestly(s, a + b, end)
    decreases |a|
  {
    if a == [] {
      assert a + b == b;
    } else {
      assert (a + b)[1..] == a[1..] + b;
      Then(Take(s, a[0]), a[1..], m, b, end);
    }
  }

  /** The row is due and task number and row id are free. */
  predicate Ready(s: State, k: Key, tid: nat, id: nat) {
    k in s.rows && Due(s.rows[k], s.now) && k == KeyOf(k.vault, s.rows[k].payload, k.space) && tid !in s.tasks
        && FreshId(s.rows, id)
  }

  function TaskFor(s: State, k: Key, stage: Stage): Task
    requires k in s.rows
  {
    Task(k.vault, k.space, s.rows[k].payload, Drain(s.rows[k].id, s.rows[k].attempts, k), stage)
  }

  /** A drain whose find comes back with one block of content, tool error or not. */
  function FindSteps(k: Key, tid: nat, id: nat, isError: bool): seq<Step> {
    [Fetch(map[tid := k])] + ([Look(tid, Result(1, isError))] + ([Settle(tid, true, id)] + []))
  }

  /** The row is in hand, at some stage. */
  function InHand(s: State, k: Key, tid: nat, stage: Stage): State
    requires k in s.rows
  {
    s.(tasks := s.tasks[tid := TaskFor(s, k, stage)])
  }

  lemma FetchGoes(s: State, k: Key, tid: nat, id: nat)
    requires Ready(s, k, tid, id)
    ensures Goes(s, Fetch(map[tid := k]), InHand(s, k, tid, Looking))
  {
    hide KeyOf, FreshId, Due;
    assert s.tasks + map[tid := TaskFor(s, k, Looking)] == s.tasks[tid := TaskFor(s, k, Looking)];
  }

  /** The row is gone, as delivered. */
  function Gone(s: State, k: Key, ack: Ack): State { s.(rows := s.rows - {k}, settled := s.settled[k := ack]) }

  lemma LookGoes(s: State, k: Key, tid: nat, id: nat, isError: bool)
    requires Ready(s, k, tid, id)
    ensures Goes(InHand(s, k, tid, Looking), Look(tid, Result(1, isError)), InHand(s, k, tid, Delivered(ByFind)))
    ensures Goes(InHand(s, k, tid, Looking), Look(tid, CallError), InHand(s, k, tid, Writing))
    ensures Replicated(s.replicas, k) ==> Honest(InHand(s, k, tid, Looking), Look(tid, Result(1, isError)))
  {
    hide KeyOf, FreshId, Due, Replicated;
    assert InHand(s, k, tid, Looking).tasks[tid := TaskFor(s, k, Writing)] == InHand(s, k, tid, Writing).tasks;
    assert InHand(s, k, tid, Looking).tasks[tid := TaskFor(s, k, Delivered(ByFind))]
        == InHand(s, k, tid, Delivered(ByFind)).tasks;
  }

  lemma SettleGoes(s: State, k: Key, tid: nat, id: nat, ack: Ack)
    requires Ready(s, k, tid, id)
    ensures Goes(InHand(s, k, tid, Delivered(ack)), Settle(tid, true, id), Gone(s, k, ack))
  {
    hide KeyOf, Due;
    assert InHand(s, k, tid, Delivered(ack)).tasks - {tid} == s.tasks;
  }

  lemma FindRun(s: State, k: Key, tid: nat, id: nat, isError: bool)
    requires Ready(s, k, tid, id)
    ensures Leads(s, FindSteps(k, tid, id, isError), Gone(s, k, ByFind))
    ensures Replicated(s.replicas, k) ==> LeadsHonestly(s, FindSteps(k, tid, id, isError), Gone(s, k, ByFind))
  {
    FetchGoes(s, k, tid, id);
    LookGoes(s, k, tid, id, isError);
    SettleGoes(s, k, tid, id, ByFind);
    var s1, s2 := InHand(s, k, tid, Looking), InHand(s, k, tid, Delivered(ByFind));
    var s3 := Gone(s, k, ByFind);
    hide Take, KeyOf, Replicated, Ready;
    First(s2, Settle(tid, true, id), s3, [], s3);
    First(s1, Look(tid, Result(1, isError)), s2, [Settle(tid, true, id)] + [], s3);
    First(s, Fetch(map[tid := k]), s1, [Look(tid, Result(1, isError))] + ([Settle(tid, true, id)] + []), s3);
  }

  /** A drain whose find fails and whose write comes back without a transport error, kept or not. */
  function WriteSteps(k: Key, tid: nat, id: nat, isError: bool, stored: bool): seq<Step> {
    [Fetch(map[tid := k])] + ([Look(tid, CallError)]
        + ([Write(tid, Result(1, isError), stored)] + ([Settle(tid, true, id)] + [])))
  }

  function AfterWrite(s: State, k: Key, stored: bool): State
    requires k in s.rows
  {
    s.(rows := s.rows - {k}, settled := s.settled[k := ByWrite(stored)],
       replicas := if stored then s.replicas + {Replica(k.vault, k.concept, s.rows[k].payload)} else s.replicas)
  }

  /** After the write the vault may hold the memory. */
  function Sent(s: State, k: Key, stored: bool): State
    requires k in s.rows
  {
    s.(replicas := if stored then s.replicas + {Replica(k.vault, k.concept, s.rows[k].payload)} else s.replicas)
  }

  lemma WriteGoes(s: State, k: Key, tid: nat, id: nat, isError: bool, stored: bool)
    requires Ready(s, k, tid, id)
    ensures Goes(InHand(s, k, tid, Writing), Write(tid, Result(1, isError), stored),
                 InHand(Sent(s, k, stored), k, tid, Delivered(ByWrite(stored))))
  {
    hide FreshId, Due, Slug.Normalize;
    assert InHand(s, k, tid, Writing).tasks[tid := TaskFor(s, k, Delivered(ByWrite(stored)))]
        == InHand(s, k, tid, Delivered(ByWrite(stored))).tasks;
  }

  lemma WriteRun(s: State, k: Key, tid: nat, id: nat, isError: bool, stored: bool)
    requires Ready(s, k, tid, id)
    ensures Leads(s, WriteSteps(k, tid, id, isError, stored), AfterWrite(s, k, stored))
    ensures stored ==> LeadsHonestly(s, WriteSteps(k, tid, id, isError, stored), AfterWrite(s, k, stored))
  {
    FetchGoes(s, k, tid, id);
    LookGoes(s, k, tid, id, isError);
    WriteGoes(s, k, tid, id, isError, stored);
    SettleGoes(Sent(s, k, stored), k, tid, id, ByWrite(stored));
    var end := AfterWrite(s, k, stored);
    var s1, s2 := InHand(s, k, tid, Looking), InHand(s, k, tid, Writing);
    var s3 := InHand(Sent(s, k, stored), k, tid, Delivered(ByWrite(stored)));
    assert Gone(Sent(s, k, stored), k, ByWrite(stored)) == end;
    hide Take, KeyOf, Ready, Sent, AfterWrite, InHand, Gone;
    First(s3, Settle(tid, true, id), end, [], end);
    First(s2, Write(tid, Result(1, isError), stored), s3, [Settle(tid, true, id)] + [], end);
    First(s1, Look(tid, CallError), s2, [Write(tid, Result(1, isError), stored)] + ([Settle(tid, true, id)] + []), end);
    First(s, Fetch(map[tid := k]), s1, [Look(tid, CallError)]
        + ([Write(tid, Result(1, isError), stored)] + ([Settle(tid, true, id)] + [])), end);
  }

  /**
   From every reachable state, any due row whose memory is not held can be lost by one drain
   whose find has content.
   */
  lemma AnyUnheldRowCanBeLost(s: State, k: Key, tid: nat, id: nat, isError: bool, exact: bool) returns (end: State)
    requires Inv(s) && k in s.rows && Due(s.rows[k], s.now) && tid !in s.tasks && FreshId(s.rows, id)
    requires k in s.newest && !Held(s, k, exact)
    ensures Leads(s, FindSteps(k, tid, id, isError), end)
    ensures k in end.newest && end.newest[k] == s.newest[k] && !Safe(end, k, exact)
  {
    assert RowOk(s, k);
    FindRun(s, k, tid, id, isError);
    end := Gone(s, k, ByFind);
  }

  // ---------------------------------------------------------------- from the start

  function Queued(k: Key, p: Payload, replicas: Replicas, now: int): State {
    State(map[k := Row(1, p, false, 0, now, now - 5)], replicas, map[], map[k := p], {}, map[], now)
  }

  function Enqueueing(k: Key, p: Payload, now: int): seq<Step> {
    [Enqueue(k.vault, k.space, p, 1)] + ([Tick(now)] + [])
  }

  lemma EnqueueRun(s: State, k: Key, p: Payload, now: int)
    requires k == KeyOf(k.vault, p, k.space) && s.rows == map[] && s.tasks == map[] && s.purged == {}
        && s.now == now - 5
    requires (s.newest == map[] || s.newest.Keys == {k}) && s.settled.Keys <= {k}
    ensures LeadsHonestly(s, Enqueueing(k, p, now), Queued(k, p, s.replicas, now))
    ensures Ready(Queued(k, p, s.replicas, now), k, 0, 2)
  {
    hide KeyOf;
    var end := Queued(k, p, s.replicas, now);
    var s1 := end.(now := now - 5);
    assert s.newest[k := p] == map[k := p];
    assert s.rows[k := Row(1, p, false, 0, now, now - 5)] == end.rows;
    assert s.purged - {k} == {} && s.settled - {k} == map[];
    First(s1, Tick(now), end, [], end);
    First(s, Enqueue(k.vault, k.space, p, 1), s1, [Tick(now)] + [], end);
  }

  /** For any memory: a find that comes back with content, or a write that is not kept, loses it with an empty vault. */
  lemma UntruthfulVaultLoses(k: Key, p: Payload, isError: bool, byFind: bool) returns (steps: seq<Step>, s: State)
    requires k == KeyOf(k.vault, p, k.space)
    ensures Leads(Start(0), steps, s)
    ensures k in s.newest && s.newest[k] == p && k !in s.rows && k !in s.purged && s.replicas == {}
  {
    hide KeyOf;
    var m := Queued(k, p, {}, 5);
    EnqueueRun(Start(0), k, p, 5);
    if byFind {
      FindRun(m, k, 0, 2, isError);
      steps, s := Enqueueing(k, p, 5) + FindSteps(k, 0, 2, isError), Gone(m, k, ByFind);
      Then(Start(0), Enqueueing(k, p, 5), m, FindSteps(k, 0, 2, isError), s);
    } else {
      WriteRun(m, k, 0, 2, isError, false);
      steps, s := Enqueueing(k, p, 5) + WriteSteps(k, 0, 2, isError, false), AfterWrite(m, k, false);
      Then(Start(0), Enqueueing(k, p, 5), m, WriteSteps(k, 0, 2, isError, false), s);
    }
  }

  /**
   Even with truthful vaults: once one memory is stored, a newer one under the same key is
   dropped on the find of the older.
   */
  lemma OlderReplicaCounts(k: Key, p: Payload, q: Payload) returns (steps: seq<Step>, s: State)
    requires k == KeyOf(k.vault, p, k.space) == KeyOf(k.vault, q, k.space) && p != q
    ensures LeadsHonestly(Start(0), steps, s)
    ensures k in s.newest && s.newest[k] == q && Safe(s, k, false) && !Safe(s, k, true)
  {
    hide KeyOf;
    var held := {Replica(k.vault, k.concept, p)};
    var a, b := Queued(k, p, {}, 5), Queued(k, q, held, 10);
    var m := AfterWrite(a, k, true);
    EnqueueRun(Start(0), k, p, 5);
    WriteRun(a, k, 0, 2, false, true);
    assert m.rows == map[] && m.replicas == held;
    EnqueueRun(m, k, q, 10);
    assert Replica(k.vault, k.concept, p) in b.replicas && Replicated(b.replicas, k);
    FindRun(b, k, 0, 2, false);
    s := Gone(b, k, ByFind);
    hide Run, AllHonest;
    Then(m, Enqueueing(k, q, 10), b, FindSteps(k, 0, 2, false), s);
    Then(a, WriteSteps(k, 0, 2, false, true), m, Enqueueing(k, q, 10) + FindSteps(k, 0, 2, false), s);
    steps := Enqueueing(k, p, 5) + (WriteSteps(k, 0, 2, false, true)
        + (Enqueueing(k, q, 10) + FindSteps(k, 0, 2, false)));
    Then(Start(0), Enqueueing(k, p, 5), a, WriteSteps(k, 0, 2, false, true)
        + (Enqueueing(k, q, 10) + FindSteps(k, 0, 2, false)), s);
  }

  function RefreshSteps(k: Key, q: Payload): seq<Step> {
    [Fetch(map[0 := k])] + ([Enqueue(k.vault, k.space, q, 2)] + ([Look(0, CallError)]
      + ([Write(0, Result(1, false), true)] + ([Settle(0, true, 2)] + []))))
  }

  /**
   Even with truthful vaults: a row rewritten while its older content is pushed is dequeued
   with the older content.
   */
  lemma RefreshedRowIsDropped(k: Key, p: Payload, q: Payload) returns (steps: seq<Step>, s: State)
    requires k == KeyOf(k.vault, p, k.space) == KeyOf(k.vault, q, k.space) && p != q
    ensures LeadsHonestly(Start(0), steps, s)
    ensures k in s.newest && s.newest[k] == q && Safe(s, k, false) && !Safe(s, k, true)
  {
    hide KeyOf;
    var a := Queued(k, p, {}, 5);
    var one := Replica(k.vault, k.concept, p);
    var s1 := a.(tasks := map[0 := TaskFor(a, k, Looking)]);
    var s2 := s1.(rows := map[k := Row(1, q, false, 0, 5, 0)], newest := map[k := q]);
    var s3 := s2.(tasks := map[0 := TaskFor(a, k, Writing)]);
    var s4 := s2.(tasks := map[0 := TaskFor(a, k, Delivered(ByWrite(true)))], replicas := {one});
    s := s4.(rows := map[], tasks := map[], settled := map[k := ByWrite(true)]);
    EnqueueRun(Start(0), k, p, 5);
    RefreshStates(k, p, q, a, s1, s2, s3, s4, s);
    First(s4, Settle(0, true, 2), s, [], s);
    First(s3, Write(0, Result(1, false), true), s4, [Settle(0, true, 2)] + [], s);
    var rest := [Write(0, Result(1, false), true)] + ([Settle(0, true, 2)] + []);
    First(s2, Look(0, CallError), s3, rest, s);
    First(s1, Enqueue(k.vault, k.space, q, 2), s2, [Look(0, CallError)] + rest, s);
    First(a, Fetch(map[0 := k]), s1, [Enqueue(k.vault, k.space, q, 2)] + ([Look(0, CallError)] + rest), s);
    steps := Enqueueing(k, p, 5) + RefreshSteps(k, q);
    Then(Start(0), Enqueueing(k, p, 5), a, RefreshSteps(k, q), s);
    assert one.vault == k.vault && one.concept == k.concept && Replicated(s.replicas, k);
    assert Replica(k.vault, k.concept, q) != one;
  }

  lemma RefreshStates(k: Key, p: Payload, q: Payload, a: State, s1: State, s2: State, s3: State, s4: State, s: State)
    requires k == KeyOf(k.vault, p, k.space) == KeyOf(k.vault, q, k.space)
    requires a == Queued(k, p, {}, 5) && s1 == a.(tasks := map[0 := TaskFor(a, k, Looking)])
    requires s2 == s1.(rows := map[k := Row(1, q, false, 0, 5, 0)], newest := map[k := q])
    requires s3 == s2.(tasks := map[0 := TaskFor(a, k, Writing)])
    requires s4 == s2.(tasks := map[0 := TaskFor(a, k, Delivered(ByWrite(true)))],
                       replicas := {Replica(k.vault, k.concept, p)})
    requires s == s4.(rows := map[], tasks := map[], settled := map[k := ByWrite(true)])
    ensures Goes(a, Fetch(map[0 := k]), s1)
    ensures Goes(s1, Enqueue(k.vault, k.space, q, 2), s2)
    ensures Goes(s2, Look(0, CallError), s3)
    ensures Goes(s3, Write(0, Result(1, false), true), s4)
    ensures Goes(s4, Settle(0, true, 2), s)
  {
    hide KeyOf;
    RefreshBegins(k, p, q, a, s1, s2);
    assert s2.tasks[0 := TaskFor(a, k, Writing)] == s3.tasks;
    assert s3.tasks[0 := TaskFor(a, k, Delivered(ByWrite(true)))] == s4.tasks;
    assert s4.rows - {k} == map[] && s4.tasks - {0} == map[];
    assert {} + {Replica(k.vault, k.concept, p)} == s4.replicas && s4.settled[k := ByWrite(true)] == s.settled;
  }

  lemma RefreshBegins(k: Key, p: Payload, q: Payload, a: State, s1: State, s2: State)
    requires k == KeyOf(k.vault, p, k.space) == KeyOf(k.vault, q, k.space)
    requires a == Queued(k, p, {}, 5) && s1 == a.(tasks := map[0 := TaskFor(a, k, Looking)])
    requires s2 == s1.(rows := map[k := Row(1, q, false, 0, 5, 0)], newest := map[k := q])
    ensures Goes(a, Fetch(map[0 := k]), s1) && Goes(s1, Enqueue(k.vault, k.space, q, 2), s2)
  {
    hide KeyOf;
    assert a.tasks + map[0 := TaskFor(a, k, Looking)] == s1.tasks;
    assert s1.newest[k := q] == s2.newest && s1.rows[k := Row(1, q, false, 0, 5, 0)] == s2.rows;
    assert s1.purged - {k} == {};
  }

  /**
   Row ids can come back: after a drainer took its snapshot, another one delivers the row,
   a new memory gets its id, and the first drainer's failure charges that new row.
   */
  lemma StaleChargeHitsAnother(k: Key, p: Payload, l: Key, q: Payload) returns (steps: seq<Step>, s: State)
    requires k == KeyOf(k.vault, p, k.space) && l == KeyOf(l.vault, q, l.space) && k != l
    ensures Leads(Start(0), steps, s)
    ensures Enabled(s, Settle(1, true, 2)) && s.tasks[1].stage.Failed? && Draining(s.tasks[1])
        && s.tasks[1].origin.key == k
    ensures l in s.rows && s.rows[l].attempts == 0 && k !in s.rows
    ensures l in Take(s, Settle(1, true, 2)).rows && Take(s, Settle(1, true, 2)).rows[l].attempts == 1
  {
    hide KeyOf;
    var a := OneRow(k, p, 0, 5, Mine(k, p, 0, Failed), 5);
    var b := AfterWrite(a, k, true);
    s := b.(rows := map[l := Row(1, q, false, 0, 10, 5)], newest := map[k := p, l := q]);
    StaleSnapshot(k, p);
    WriteRun(a, k, 0, 2, false, true);
    assert b.rows == map[] && b.newest[l := q] == s.newest && b.rows[l := Row(1, q, false, 0, 10, 5)] == s.rows;
    assert b.purged - {l} == {};
    First(b, Enqueue(l.vault, l.space, q, 1), s, [], s);
    hide Run, AllHonest, Snapshot, WriteSteps, Take, Enabled, Upserted;
    Then(a, WriteSteps(k, 0, 2, false, true), b, [Enqueue(l.vault, l.space, q, 1)] + [], s);
    steps := Snapshot(k, p) + (WriteSteps(k, 0, 2, false, true) + ([Enqueue(l.vault, l.space, q, 1)] + []));
    Then(Start(0), Snapshot(k, p), a, WriteSteps(k, 0, 2, false, true) + ([Enqueue(l.vault, l.space, q, 1)] + []), s);
    ChargesOther(k, p, l, q, s);
  }

  lemma ChargesOther(k: Key, p: Payload, l: Key, q: Payload, s: State)
    requires s.rows == map[l := Row(1, q, false, 0, 10, 5)] && s.tasks == map[1 := Mine(k, p, 0, Failed)]
    ensures Enabled(s, Settle(1, true, 2)) && Take(s, Settle(1, true, 2)).rows == MarkFailed(s.rows, 1, 0, s.now)
    ensures l in MarkFailed(s.rows, 1, 0, s.now) && MarkFailed(s.rows, 1, 0, s.now)[l].attempts == 1
  {
    hide KeyOf;
  }
}
