/**
 Crash safety of the cloud vault queue (internal/agents/cloud_vault_replicator.go): writers
 enqueue at any time, the worker's database updates may fail, and the process may die
 between any two of them.
 */
module CloudProtocol {
  import opened Options
  import opened CloudBackoff
  import opened CloudQueue

  datatype Stage = Waiting | Marked | Acked | Refused(error: string)

  datatype State = State(
    wired: bool,
    rows: Table,
    batch: seq<Entry>,              // fetched entries still to process; the first one is in hand
    stage: Stage,                   // how far the first one is
    sent: map<Key, Content>,        // history: content of the last acknowledged push of each memory
    pushed: seq<Push>,              // history: what the cloud took, acknowledged or not
    overlapped: set<Key>,           // history: rows rewritten while in the batch, not fetched again since
    now: int)

  datatype Step =
    | Enqueue(session: string, agent: string, key: Key, content: Content, id: nat)
    | Fetch(keys: seq<Key>)
    | Mark(dbOk: bool)
    | PushTry(ok: bool, kept: bool, error: string)
    | Finish(dbOk: bool, jitter: int)
    | PurgeOld
    | Crash
    | Tick(to: int)

  function Start(wired: bool, now: int): State { State(wired, map[], [], Waiting, map[], [], {}, now) }

  predicate InBatch(s: State, k: Key) { exists i | 0 <= i < |s.batch| :: s.batch[i].key == k }

  predicate Distinct(keys: seq<Key>) { forall i, j | 0 <= i < j < |keys| :: keys[i] != keys[j] }

  predicate Enabled(s: State, t: Step) {
    match t
    case Enqueue(_, _, _, _, id) => forall k <- s.rows :: s.rows[k].id != id
    case Fetch(keys) =>
      && s.batch == [] && |keys| <= BATCH && Distinct(keys)
      && forall k <- keys :: k in s.rows && Fetchable(s.rows[k], s.now)
    case Mark(_) => s.batch != [] && s.stage.Waiting?
    case PushTry(_, _, _) => s.batch != [] && s.stage.Marked? && s.wired
    case Finish(_, jitter) => s.batch != [] && (s.stage.Acked? || s.stage.Refused? || (s.stage.Marked? && !s.wired))
        && 0 <= jitter < JITTER
    case PurgeOld => s.batch == []
    case Crash => true
    case Tick(to) => s.now <= to
  }

  function Take(s: State, t: Step): State
    requires Enabled(s, t)
  {
    match t
    case Enqueue(session, agent, k, c, id) =>
      s.(rows := Upsert(s.rows, k, session, agent, c, id, s.now),
         overlapped := if InBatch(s, k) then s.overlapped + {k} else s.overlapped)
    case Fetch(keys) => s.(batch := EntriesOf(s.rows, keys), stage := Waiting,
                           overlapped := s.overlapped - set k | k in keys)
    case Mark(dbOk) =>
      if dbOk then s.(rows := SetStatus(s.rows, s.batch[0].row.id, InProgress), stage := Marked) else Next(s)
    case PushTry(ok, kept, error) =>
      var s' := if ok || kept then s.(pushed := s.pushed + [PushOf(s.batch[0])]) else s;
      if ok
      then s'.(stage := Acked, sent := s.sent[s.batch[0].key := s.batch[0].row.content])
      else s'.(stage := Refused(error))
    case Finish(dbOk, jitter) => Next(if dbOk then s.(rows := Finished(s, jitter)) else s)
    case PurgeOld => s.(rows := Purge(s.rows, s.now))
    case Crash => s.(batch := [], stage := Waiting)
    case Tick(to) => s.(now := to)
  }

  function Next(s: State): State
    requires s.batch != []
  {
    s.(batch := s.batch[1..], stage := Waiting)
  }

  function Finished(s: State, jitter: int): Table
    requires s.batch != [] && 0 <= jitter < JITTER
  {
    var r := s.batch[0].row;
    match s.stage
    case Refused(error) =>
      var f := Failed(r, error, s.now, jitter);
      SetBackoff(s.rows, r.id, f.status, f.error, f.attempts, f.nextRetry)
    case _ => SetStatus(s.rows, r.id, Completed)
  }

  // ---------------------------------------------------------------- invariant

  predicate Sent(s: State, k: Key, c: Content) { k in s.sent && s.sent[k] == c }

  /** What is known of a row. */
  predicate RowOk(s: State, k: Key)
    requires k in s.rows
  {
    var r := s.rows[k];
    && (r.status.Completed? ==> !s.wired || Sent(s, k, r.content) || k in s.overlapped)
    && (r.status.Dead? ==> r.maxAttempts > 0 && r.attempts >= r.maxAttempts)
    && (r.status.InProgress? ==> r.nextRetry <= s.now)
    && (r.status.Pending? ==> r.nextRetry <= s.now + 3605)
  }

  /** A completed row whose content is the last one acknowledged is really in the cloud, or off it if it is a delete. */
  predicate HeldOk(s: State, k: Key)
    requires k in s.rows
  {
    s.rows[k].status.Completed? && s.wired && Sent(s, k, s.rows[k].content) ==> Holds(RemoteOf(s.pushed), k, s.rows[k])
  }

  /** The worker's copy of a row: same row, same attempts, and its content unless rewritten meanwhile. */
  predicate EntryOk(s: State, e: Entry) {
    && e.key in s.rows && s.rows[e.key].id == e.row.id
    && s.rows[e.key].agent == e.row.agent && s.rows[e.key].createdAt == e.row.createdAt
    && s.rows[e.key].attempts == e.row.attempts && s.rows[e.key].maxAttempts == e.row.maxAttempts
    && (s.rows[e.key].content == e.row.content || e.key in s.overlapped)
    && s.rows[e.key].nextRetry <= s.now && !s.rows[e.key].status.Completed? && !s.rows[e.key].status.Dead?
  }

  ghost predicate Inv(s: State) {
    && UniqueIds(s.rows)
    && (forall k <- s.rows :: RowOk(s, k))
    && (forall i | 0 <= i < |s.batch| :: EntryOk(s, s.batch[i]))
    && (forall i, j | 0 <= i < j < |s.batch| :: s.batch[i].key != s.batch[j].key)
    && (s.stage.Acked? ==> s.batch != [] && Sent(s, s.batch[0].key, s.batch[0].row.content))
    && (s.stage.Acked? ==> Holds(RemoteOf(s.pushed), s.batch[0].key, s.batch[0].row))
    && (forall k <- s.rows :: HeldOk(s, k))
  }

  lemma {:induction false} StepKeepsInv(s: State, t: Step)
    requires Inv(s) && Enabled(s, t)
    ensures Inv(Take(s, t))
  {
    hide RemoteOf, Holds, PushOf;
    match t
    case Enqueue(_, _, _, _, _) => EnqueueKeepsInv(s, t);
    case Fetch(_) => FetchKeepsInv(s, t);
    case Mark(_) => MarkKeepsInv(s, t);
    case PushTry(_, _, _) => PushKeepsInv(s, t);
    case Finish(_, _) => FinishKeepsInv(s, t);
    case PurgeOld =>
    case Crash =>
    case Tick(_) =>
  }

  lemma EnqueueKeepsInv(s: State, t: Step)
    requires Inv(s) && t.Enqueue? && Enabled(s, t)
    ensures Inv(Take(s, t))
  {
    hide RemoteOf, Holds;
  }

  lemma FetchKeepsInv(s: State, t: Step)
    requires Inv(s) && t.Fetch? && Enabled(s, t)
    ensures Inv(Take(s, t))
  {
  }

  lemma PushKeepsInv(s: State, t: Step)
    requires Inv(s) && t.PushTry? && Enabled(s, t)
    ensures Inv(Take(s, t))
  {
    hide RemoteOf, Holds, PushOf, RowOk;
    var e, s' := s.batch[0], Take(s, t);
    assert EntryOk(s, e);
    PushHolds(s.pushed, e);
    forall k <- s'.rows
      ensures RowOk(s', k) && HeldOk(s', k)
    {
      assert RowOk(s, k) && HeldOk(s, k);
      SentElsewhere(s, t, k);
    }
    forall i | 0 <= i < |s'.batch|
      ensures EntryOk(s', s'.batch[i])
    {
      assert EntryOk(s, s.batch[i]);
    }
  }

  lemma SentElsewhere(s: State, t: Step, k: Key)
    requires t.PushTry? && Enabled(s, t) && k in s.rows && RowOk(s, k) && EntryOk(s, s.batch[0])
    ensures RowOk(Take(s, t), k)
    ensures k != s.batch[0].key ==> forall c :: Sent(Take(s, t), k, c) == Sent(s, k, c)
  {
    hide RemoteOf, Holds, PushOf;
  }

  lemma NextKeepsInv(s: State)
    requires Inv(s) && s.batch != []
    ensures Inv(Next(s))
  {
  }

  lemma MarkKeepsInv(s: State, t: Step)
    requires Inv(s) && t.Mark? && Enabled(s, t)
    ensures Inv(Take(s, t))
  {
    hide RemoteOf, Holds;
    NextKeepsInv(s);
    StatusAt(s.rows, s.batch[0].key, InProgress);
  }

  /** The row in hand gets a last update and the worker moves on. */
  lemma LastUpdateKeepsInv(s: State, r: Row)
    requires Inv(s) && s.batch != [] && r.id == s.rows[s.batch[0].key].id
    requires HeldOk(s.(rows := s.rows[s.batch[0].key := r]), s.batch[0].key)
    requires RowOk(s.(rows := s.rows[s.batch[0].key := r]), s.batch[0].key)
    ensures Inv(Next(s.(rows := s.rows[s.batch[0].key := r])))
  {
    var key := s.batch[0].key;
    var s' := Next(s.(rows := s.rows[key := r]));
    assert UniqueIds(s'.rows);
    hide Fetchable, Enabled, RemoteOf, Holds, UniqueIds;
    forall k <- s'.rows
      ensures RowOk(s', k) && HeldOk(s', k)
    {
      assert k != key ==> RowOk(s, k) && HeldOk(s, k);
    }
    forall i | 0 <= i < |s'.batch|
      ensures EntryOk(s', s'.batch[i])
    {
      assert EntryOk(s, s.batch[i + 1]) && s.batch[i + 1].key != key;
    }
  }

  lemma FinishKeepsInv(s: State, t: Step)
    requires Inv(s) && t.Finish? && Enabled(s, t)
    ensures Inv(Take(s, t))
  {
    hide Next, RetryAt, SetStatus, SetBackoff, RemoteOf;
    if !t.dbOk {
      NextKeepsInv(s);
    } else {
      var e := s.batch[0];
      assert EntryOk(s, e);
      StatusAt(s.rows, e.key, Completed);
      if s.stage.Refused? {
        var f := Failed(e.row, s.stage.error, s.now, t.jitter);
        BackoffAt(s.rows, e.key, f.status, f.error, f.attempts, f.nextRetry);
        RetryAtBounds(s.now, e.row.attempts + 1, t.jitter);
      }
      LastUpdateKeepsInv(s, Finished(s, t.jitter)[e.key]);
    }
  }

  // ---------------------------------------------------------------- runs

  function Run(s: State, steps: seq<Step>): Option<State>
    decreases |steps|
  {
    if steps == [] then Some(s)
    else if Enabled(s, steps[0]) then Run(Take(s, steps[0]), steps[1..])
    else None
  }

  lemma {:induction false} RunKeepsInv(s: State, steps: seq<Step>)
    requires Inv(s) && Run(s, steps).Some?
    ensures Inv(Run(s, steps).value) && Run(s, steps).value.wired == s.wired
    decreases |steps|
  {
    if steps != [] {
      StepKeepsInv(s, steps[0]);
      RunKeepsInv(Take(s, steps[0]), steps[1..]);
    }
  }

  /** No write rewrites a memory while the worker has it in its batch. */
  predicate NoOverlap(s: State, steps: seq<Step>)
    requires Run(s, steps).Some?
    decreases |steps|
  {
    steps != [] ==> !(steps[0].Enqueue? && InBatch(s, steps[0].key)) && NoOverlap(Take(s, steps[0]), steps[1..])
  }

  lemma {:induction false} NoOverlapKept(s: State, steps: seq<Step>)
    requires Run(s, steps).Some? && NoOverlap(s, steps) && s.overlapped == {}
    ensures Run(s, steps).value.overlapped == {}
    decreases |steps|
  {
    if steps != [] {
      NoOverlapKept(Take(s, steps[0]), steps[1..]);
    }
  }

  /**
   Crash safety. In every reachable state, with crashes and failing updates anywhere:
   a completed row's present content is the last one acknowledged for it (or there is no
   client), unless it was rewritten while in the worker's batch; a dead row has used up its
   attempts; any other row may be fetched once due, which is at most 3605 s away, and at once
   if a crash left it in progress.
   */
  lemma CrashSafe(wired: bool, now: int, steps: seq<Step>, s: State)
    requires Run(Start(wired, now), steps) == Some(s)
    ensures forall k <- s.rows ::
              s.rows[k].status.Completed? && wired && k !in s.overlapped ==> Sent(s, k, s.rows[k].content)
    ensures NoOverlap(Start(wired, now), steps) ==>
              forall k <- s.rows :: s.rows[k].status.Completed? && wired ==> Sent(s, k, s.rows[k].content)
    ensures forall k <- s.rows :: s.rows[k].status.Completed? && wired && Sent(s, k, s.rows[k].content) ==>
              Holds(RemoteOf(s.pushed), k, s.rows[k])
    ensures forall k <- s.rows :: s.rows[k].status.Dead? ==> s.rows[k].attempts >= s.rows[k].maxAttempts > 0
    ensures forall k <- s.rows ::
              s.rows[k].status.Completed? || s.rows[k].status.Dead? || Fetchable(s.rows[k], s.now + 3605)
    ensures forall k <- s.rows :: s.rows[k].status.InProgress? ==> Fetchable(s.rows[k], s.now)
  {
    hide RemoteOf, Holds;
    RunKeepsInv(Start(wired, now), steps);
    assert forall k <- s.rows :: RowOk(s, k) && HeldOk(s, k);
    if NoOverlap(Start(wired, now), steps) {
      NoOverlapKept(Start(wired, now), steps);
    }
  }

  // ---------------------------------------------------------------- exactly when a completed row was sent

  /** A row is as sent: its content is the last one acknowledged for it; or, by effect, the cloud agrees with it. */
  predicate AsSent(s: State, k: Key, byEffect: bool)
    requires k in s.rows
  {
    if byEffect then Holds(RemoteOf(s.pushed), k, s.rows[k]) else Sent(s, k, s.rows[k].content)
  }

  /** The same content; or, by effect, contents that leave the same in the cloud. */
  predicate Alike(c: Content, d: Content, byEffect: bool) {
    if !byEffect then c == d
    else if c.operation == "delete" || d.operation == "delete" then c.operation == d.operation
    else c.concept == d.concept && c.text == d.text
  }

  ghost predicate AllSent(s: State, byEffect: bool) {
    forall k <- s.rows :: s.rows[k].status.Completed? ==> AsSent(s, k, byEffect)
  }

  /** A completing update after an acknowledged push whose row no longer has the content that was fetched. */
  predicate CompletesUnsent(s: State, t: Step, byEffect: bool)
    requires Enabled(s, t)
  {
    && t.Finish? && t.dbOk && s.stage.Acked? && s.batch[0].key in s.rows
    && !Alike(s.rows[s.batch[0].key].content, s.batch[0].row.content, byEffect)
  }

  /**
   The completing update itself: the row was sent exactly if its content is still the one
   fetched, which the update could test; and the cloud agrees with it exactly if the two
   contents have the same effect.
   */
  lemma CompletedIsSentIff(s: State, jitter: int, byEffect: bool)
    requires Inv(s) && s.stage.Acked? && Enabled(s, Finish(true, jitter))
    ensures var k, s' := s.batch[0].key, Take(s, Finish(true, jitter));
            && k in s'.rows && s'.rows[k].status.Completed?
            && (AsSent(s', k, byEffect) <==> Alike(s.rows[k].content, s.batch[0].row.content, byEffect))
  {
    hide RemoteOf, RowOk;
    assert EntryOk(s, s.batch[0]);
    StatusAt(s.rows, s.batch[0].key, Completed);
  }

  lemma StepSentIff(s: State, t: Step, byEffect: bool)
    requires Inv(s) && AllSent(s, byEffect) && s.wired && Enabled(s, t)
    ensures AllSent(Take(s, t), byEffect) <==> !CompletesUnsent(s, t, byEffect)
  {
    hide UniqueIds, RowOk, RetryAt, RemoteOf, Holds, PushOf;
    match t
    case Finish(dbOk, jitter) => FinishSentIff(s, dbOk, jitter, byEffect);
    case Mark(_) =>
      assert EntryOk(s, s.batch[0]);
      StatusOfOne(s.rows, s.batch[0].key, InProgress);
    case PushTry(_, _, _) =>
      assert EntryOk(s, s.batch[0]);
      PushHolds(s.pushed, s.batch[0]);
    case _ =>
  }

  lemma StatusOfOne(rows: Table, k: Key, status: Status)
    requires UniqueIds(rows) && k in rows
    ensures SetStatus(rows, rows[k].id, status) == rows[k := rows[k].(status := status, error := "")]
  {
    StatusAt(rows, k, status);
  }

  lemma FinishSentIff(s: State, dbOk: bool, jitter: int, byEffect: bool)
    requires Inv(s) && AllSent(s, byEffect) && s.wired && Enabled(s, Finish(dbOk, jitter))
    ensures AllSent(Take(s, Finish(dbOk, jitter)), byEffect) <==> !CompletesUnsent(s, Finish(dbOk, jitter), byEffect)
  {
    hide RowOk, RetryAt, SetStatus, SetBackoff, RemoteOf, Holds, Alike;
    var e := s.batch[0];
    assert EntryOk(s, e);
    if dbOk && s.stage.Acked? {
      CompletedIsSentIff(s, jitter, byEffect);
      StatusAt(s.rows, e.key, Completed);
    } else if dbOk {
      var f := Failed(e.row, s.stage.error, s.now, jitter);
      BackoffAt(s.rows, e.key, f.status, f.error, f.attempts, f.nextRetry);
    }
  }

  predicate NeverCompletesUnsent(s: State, steps: seq<Step>, byEffect: bool)
    requires Run(s, steps).Some?
    decreases |steps|
  {
    steps != [] ==>
      && !CompletesUnsent(s, steps[0], byEffect)
      && NeverCompletesUnsent(Take(s, steps[0]), steps[1..], byEffect)
  }

  ghost predicate AlwaysSent(s: State, steps: seq<Step>, byEffect: bool)
    requires Run(s, steps).Some?
    decreases |steps|
  {
    AllSent(s, byEffect) && (steps != [] ==> AlwaysSent(Take(s, steps[0]), steps[1..], byEffect))
  }

  lemma {:induction false} SentIff(s: State, steps: seq<Step>, byEffect: bool)
    requires Inv(s) && AllSent(s, byEffect) && s.wired && Run(s, steps).Some?
    ensures AlwaysSent(s, steps, byEffect) <==> NeverCompletesUnsent(s, steps, byEffect)
    decreases |steps|
  {
    if steps != [] {
      KeepsWired(s, steps[0]);
      hide Inv, AllSent, Enabled, Take, CompletesUnsent;
      StepKeepsInv(s, steps[0]);
      StepSentIff(s, steps[0], byEffect);
      if AllSent(Take(s, steps[0]), byEffect) {
        SentIff(Take(s, steps[0]), steps[1..], byEffect);
      }
    }
  }

  lemma KeepsWired(s: State, t: Step)
    requires Enabled(s, t)
    ensures Take(s, t).wired == s.wired
  {
  }

  /**
   With a client, every completed row was sent as it is, at every point of a run, exactly
   when no completing update of the run found its row's content changed since the fetch; and
   the cloud agrees with every completed row exactly when none found a change of effect.
   */
  lemma {:induction false} RunSentIff(now: int, steps: seq<Step>, byEffect: bool)
    requires Run(Start(true, now), steps).Some?
    ensures AlwaysSent(Start(true, now), steps, byEffect) <==> NeverCompletesUnsent(Start(true, now), steps, byEffect)
  {
    SentIff(Start(true, now), steps, byEffect);
  }

  /** A row is deleted exactly by a purge, once completed or dead and more than a week old. */
  lemma OnlyDoneRowsDeleted(s: State, t: Step, k: Key)
    requires Inv(s) && Enabled(s, t) && k in s.rows
    ensures var r := s.rows[k];
            k !in Take(s, t).rows
            <==> t.PurgeOld? && (r.status.Completed? || r.status.Dead?) && r.createdAt + 604800 < s.now
  {
    hide Inv, RetryAt, RemoteOf, Holds;
  }

  /** A revived dead row keeps its spent attempts: one more refusal and it is dead again. */
  lemma RevivedRowHasOneTry(s: State, k: Key, c: Content, session: string, agent: string, id: nat, error: string,
      jitter: int)
    requires Inv(s) && k in s.rows && s.rows[k].status.Dead? && 0 <= jitter < JITTER
    ensures var r := Upsert(s.rows, k, session, agent, c, id, s.now)[k];
            r.status.Pending? && r.attempts == s.rows[k].attempts && Failed(r, error, s.now, jitter).status.Dead?
  {
    assert RowOk(s, k);
  }

  lemma RunFirst(s: State, t: Step, s': State, rest: seq<Step>)
    requires Enabled(s, t) && Take(s, t) == s'
    ensures Run(s, [t] + rest) == Run(s', rest)
  {
    assert ([t] + rest)[1..] == rest;
  }

  function RowWith(c: Content, status: Status): Row { Row(0, "s", "a", c, status, "", 0, 5, 0, 0) }

  function Overlapping(k: Key, c: Content, d: Content): seq<Step> {
    [Enqueue("s", "a", k, c, 0)] + ([Fetch([k])] + ([Mark(true)] + ([Enqueue("s", "a", k, d, 1)]
      + ([PushTry(true, true, "")] + ([Finish(true, 0)] + [])))))
  }

  /** The states that run goes through. */
  function Through(k: Key, c: Content, d: Content, n: nat): State {
    var s0 := Start(true, 0);
    var s2 := s0.(rows := map[k := RowWith(c, Pending)], batch := [Entry(k, RowWith(c, Pending))]);
    var s4 := s2.(rows := map[k := RowWith(d, Pending)], stage := Marked, overlapped := {k});
    match n
    case 0 => s0
    case 1 => s0.(rows := map[k := RowWith(c, Pending)])
    case 2 => s2
    case 3 => s2.(rows := map[k := RowWith(c, InProgress)], stage := Marked)
    case 4 => s4
    case 5 => s4.(stage := Acked, sent := map[k := c], pushed := [PushOf(s4.batch[0])])
    case _ => s4.(rows := map[k := RowWith(d, Completed)], sent := map[k := c], pushed := [PushOf(s4.batch[0])],
                  batch := [], stage := Waiting)
  }

  lemma OverlapBegins(k: Key, c: Content, d: Content)
    requires c != d
    ensures Goes(Through(k, c, d, 0), Enqueue("s", "a", k, c, 0), Through(k, c, d, 1))
    ensures Goes(Through(k, c, d, 1), Fetch([k]), Through(k, c, d, 2))
    ensures Goes(Through(k, c, d, 2), Mark(true), Through(k, c, d, 3))
  {
    assert EntriesOf(Through(k, c, d, 1).rows, [k]) == [Entry(k, RowWith(c, Pending))];
  }

  lemma OverlapEnds(k: Key, c: Content, d: Content)
    requires c != d
    ensures Goes(Through(k, c, d, 3), Enqueue("s", "a", k, d, 1), Through(k, c, d, 4))
    ensures Goes(Through(k, c, d, 4), PushTry(true, true, ""), Through(k, c, d, 5))
    ensures Goes(Through(k, c, d, 5), Finish(true, 0), Through(k, c, d, 6))
  {
    assert InBatch(Through(k, c, d, 3), k) by { assert Through(k, c, d, 3).batch[0].key == k; }
  }

  predicate Goes(s: State, t: Step, s': State) { Enabled(s, t) && Take(s, t) == s' }

  /** A write that overlaps the push of the same memory can be marked completed without being sent. */
  lemma OverlapCompletesUnsent(k: Key, c: Content, d: Content) returns (s: State)
    requires c != d
    ensures Run(Start(true, 0), Overlapping(k, c, d)) == Some(s)
    ensures k in s.rows && s.rows[k].status.Completed? && s.rows[k].content == d && !Sent(s, k, d)
  {
    s := Through(k, c, d, 6);
    assert k in s.rows && s.rows[k].status.Completed? && s.rows[k].content == d && !Sent(s, k, d);
    assert Through(k, c, d, 0) == Start(true, 0);
    hide Enabled, Take, Through;
    OverlapBegins(k, c, d);
    OverlapEnds(k, c, d);
    var tail := [Finish(true, 0)] + [];
    RunFirst(Through(k, c, d, 5), Finish(true, 0), s, []);
    RunFirst(Through(k, c, d, 4), PushTry(true, true, ""), Through(k, c, d, 5), tail);
    RunFirst(Through(k, c, d, 3), Enqueue("s", "a", k, d, 1), Through(k, c, d, 4), [PushTry(true, true, "")] + tail);
    RunFirst(Through(k, c, d, 2), Mark(true), Through(k, c, d, 3),
        [Enqueue("s", "a", k, d, 1)] + ([PushTry(true, true, "")] + tail));
    RunFirst(Through(k, c, d, 1), Fetch([k]), Through(k, c, d, 2),
             [Mark(true)] + ([Enqueue("s", "a", k, d, 1)] + ([PushTry(true, true, "")] + tail)));
    RunFirst(Through(k, c, d, 0), Enqueue("s", "a", k, c, 0), Through(k, c, d, 1),
             [Fetch([k])] + ([Mark(true)] + ([Enqueue("s", "a", k, d, 1)] + ([PushTry(true, true, "")] + tail))));
  }
}
