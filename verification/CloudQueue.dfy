/**
 The cloud vault queue (internal/agents/cloud_vault_replicator.go): the replicator object
 and its SQL statements on cloud_vault_queue.
 */
module CloudQueue {
  import opened CloudBackoff
  import Ranking

  const WEEK := 7 * 24 * 3600
  const BATCH := 10

  /** UNIQUE(vault_name, memory_id). */
  datatype Key = Key(vault: string, memory: string)

  /** The part of a row that is pushed and that a newer write replaces. */
  datatype Content = Content(operation: string, concept: string, text: string)

  datatype Status = Pending | InProgress | Completed | Dead

  datatype Row = Row(id: nat, session: string, agent: string, content: Content, status: Status, error: string,
                     attempts: nat, maxAttempts: nat, nextRetry: int, createdAt: int)

  type Table = map<Key, Row>

  datatype Entry = Entry(key: Key, row: Row)

  /** VaultPushEntry. */
  datatype Push = Push(op: string, agent: string, key: Key, concept: string, text: string, createdAtMs: int)

  function PushOf(e: Entry): Push {
    Push(if e.row.content.operation == "delete" then "delete" else "set",
         e.row.agent, e.key, e.row.content.concept, e.row.content.text, e.row.createdAt * 1000)
  }

  // ---------------------------------------------------------------- the remote vault

  datatype Stored = Stored(agent: string, concept: string, text: string, createdAtMs: int)

  type Remote = map<Key, Stored>

  /** What the cloud makes of one push. */
  function Receive(remote: Remote, p: Push): Remote {
    if p.op == "delete" then remote - {p.key} else remote[p.key := Stored(p.agent, p.concept, p.text, p.createdAtMs)]
  }

  /** What it holds after a list of pushes, oldest first. */
  function RemoteOf(pushed: seq<Push>): Remote {
    if pushed == [] then map[] else Receive(RemoteOf(pushed[..|pushed| - 1]), pushed[|pushed| - 1])
  }

  /** The cloud agrees with a row: the memory is there as the row has it, or gone if the row deletes it. */
  predicate Holds(remote: Remote, k: Key, r: Row) {
    if r.content.operation == "delete" then k !in remote
    else k in remote && remote[k] == Stored(r.agent, r.content.concept, r.content.text, r.createdAt * 1000)
  }

  /** A push makes the cloud agree with the row it was made from, and touches no other memory. */
  lemma PushHolds(pushed: seq<Push>, e: Entry)
    ensures Holds(RemoteOf(pushed + [PushOf(e)]), e.key, e.row)
    ensures forall k, r | k != e.key :: Holds(RemoteOf(pushed + [PushOf(e)]), k, r) == Holds(RemoteOf(pushed), k, r)
  {
    assert (pushed + [PushOf(e)])[..|pushed|] == pushed;
  }

  // ---------------------------------------------------------------- SQL

  /** CHECK (operation IN ('insert', 'update', 'delete')). */
  const OPERATIONS := {"insert", "update", "delete"}

  /** max_attempts DEFAULT 5. */
  function Upsert(rows: Table, key: Key, session: string, agent: string, c: Content, id: nat, now: int): Table {
    if key in rows then rows[key := rows[key].(content := c, status := Pending, nextRetry := now)]
    else rows[key := Row(id, session, agent, c, Pending, "", 0, 5, now, now)]
  }

  function SetStatus(rows: Table, id: nat, status: Status): Table {
    map k | k in rows :: if rows[k].id == id then rows[k].(status := status, error := "") else rows[k]
  }

  function SetBackoff(rows: Table, id: nat, status: Status, error: string, attempts: nat, nextRetry: int): Table {
    map k | k in rows ::
      if rows[k].id == id
      then rows[k].(status := status, error := error, attempts := attempts, nextRetry := nextRetry)
      else rows[k]
  }

  predicate Fetchable(r: Row, now: int) { r.status in {Pending, InProgress} && r.nextRetry <= now }

  predicate Purgeable(r: Row, now: int) { r.status in {Completed, Dead} && r.createdAt < now - WEEK }

  function Purge(rows: Table, now: int): Table {
    map k | k in rows && !Purgeable(rows[k], now) :: rows[k]
  }

  predicate UniqueIds(rows: Table) {
    forall k <- rows, l <- rows :: rows[k].id == rows[l].id ==> k == l
  }

  /** Seconds until the next try; the nanosecond wait is added to the clock before it is cut to seconds. */
  function RetryAt(now: int, attempts: nat, jitter: int): int
    requires 0 <= jitter < JITTER
  {
    (now * 1_000_000_000 + CloudVaultBackoff(attempts, jitter)) / 1_000_000_000
  }

  lemma {:induction false} RetryAtBounds(now: int, attempts: nat, jitter: int)
    requires 0 <= jitter < JITTER
    ensures now + 30 <= RetryAt(now, attempts, jitter) <= now + 3605
  {
    BackoffBounds(attempts, jitter);
  }

  /** What a failed push turns a row into. */
  function Failed(r: Row, error: string, now: int, jitter: int): Row
    requires 0 <= jitter < JITTER
  {
    var n := r.attempts + 1;
    r.(status := if r.maxAttempts > 0 && n >= r.maxAttempts then Dead else Pending, error := error,
       attempts := n, nextRetry := RetryAt(now, n, jitter))
  }

  // ---------------------------------------------------------------- the object

  /**
   How the world answers one entry: the push after its in-process retries, and each database
   statement. `kept` says whether a push that came back as failed was taken all the same.
   */
  datatype Reply = Reply(markOk: bool, pushOk: bool, kept: bool, error: string, finishOk: bool, jitter: int)

  predicate RepliesOk(replies: seq<Reply>) { forall i | 0 <= i < |replies| :: 0 <= replies[i].jitter < JITTER }

  function FetchRank(rows: Table, now: int): map<Key, int> {
    map k | k in rows && Fetchable(rows[k], now) :: rows[k].createdAt
  }

  function EntriesOf(rows: Table, keys: seq<Key>): (entries: seq<Entry>)
    requires forall k <- keys :: k in rows
    ensures |entries| == |keys| && forall i | 0 <= i < |keys| :: entries[i] == Entry(keys[i], rows[keys[i]])
  {
    seq(|keys|, i requires 0 <= i < |keys| => Entry(keys[i], rows[keys[i]]))
  }

  predicate Listed(entries: seq<Entry>, k: Key) { exists i | 0 <= i < |entries| :: entries[i].key == k }

  /**
   Rows that are pending or in progress and due, each once, the oldest first; a row left out
   finds the limit reached and is no older than any taken.
   */
  ghost predicate Fetched(rows: Table, now: int, limit: nat, entries: seq<Entry>) {
    && |entries| <= limit
    && (forall e <- entries :: e.key in rows && e.row == rows[e.key])
    && (forall e <- entries :: (e.row.status.Pending? || e.row.status.InProgress?) && e.row.nextRetry <= now)
    && (forall i, j | 0 <= i < j < |entries| ::
          entries[i].key != entries[j].key && entries[i].row.createdAt <= entries[j].row.createdAt)
    && (forall k <- rows |
          !rows[k].status.Completed? && !rows[k].status.Dead? && rows[k].nextRetry <= now && !Listed(entries, k) ::
          |entries| == limit && forall e <- entries :: e.row.createdAt <= rows[k].createdAt)
  }

  /** The query's order by rank is the order by age. */
  lemma ChosenIsFetched(rows: Table, now: int, limit: nat, keys: seq<Key>)
    requires Ranking.Chosen(FetchRank(rows, now), limit, keys)
    ensures forall k <- keys :: k in rows
    ensures Fetched(rows, now, limit, EntriesOf(rows, keys))
  {
    assert forall i | 0 <= i < |keys| :: keys[i] in FetchRank(rows, now);
    var entries := EntriesOf(rows, keys);
    forall k <- rows |
      !rows[k].status.Completed? && !rows[k].status.Dead? && rows[k].nextRetry <= now && !Listed(entries, k)
      ensures |entries| == limit && forall e <- entries :: e.row.createdAt <= rows[k].createdAt
    {
      assert k in FetchRank(rows, now).Keys;
    }
  }

  /** The row an entry ends up with, and whether it was pushed. */
  function Processed(e: Entry, r: Reply, wired: bool, now: int): Row
    requires 0 <= r.jitter < JITTER
  {
    if !r.markOk then e.row
    else
      var marked := e.row.(status := InProgress, error := "");
      if !r.finishOk then marked
      else if !wired || r.pushOk then marked.(status := Completed)
      else Failed(marked, r.error, now, r.jitter)
  }

  /** The cloud took the push. */
  predicate Pushes(r: Reply, wired: bool) { wired && r.markOk && (r.pushOk || r.kept) }

  class CloudVaultReplicator {
    const wired: bool          // a client and a machine id are set
    var rows: Table
    var pushed: seq<Push>      // what the cloud took, oldest first

    ghost predicate Valid() reads this { UniqueIds(rows) }

    constructor (wired: bool)
      ensures Valid() && this.wired == wired && rows == map[] && pushed == []
    {
      this.wired := wired;
      rows, pushed := map[], [];
    }

    /**
     Refused when a field is missing, or by the table's CHECK on the operation; otherwise one row
     per memory, due at once.
     */
    method EnqueueMemoryOperation(session: string, agent: string, key: Key, c: Content, id: nat, now: int)
      returns (ok: bool)
      requires Valid() && forall k <- rows :: rows[k].id != id
      modifies this`rows
      ensures Valid()
      ensures ok <==> session != "" && agent != "" && key.vault != "" && key.memory != "" && c.operation in OPERATIONS
      ensures rows == if ok then Upsert(old(rows), key, session, agent, c, id, now) else old(rows)
      ensures ok ==> key in rows && rows[key].content == c && rows[key].status.Pending? && Fetchable(rows[key], now)
      ensures ok && key in old(rows) ==>
                && rows.Keys == old(rows).Keys
                && rows[key] == old(rows)[key].(content := c, status := Pending, nextRetry := now)
      ensures ok && key !in old(rows) ==> rows[key] == Row(id, session, agent, c, Pending, "", 0, 5, now, now)
      ensures forall k <- old(rows) | k != key :: k in rows && rows[k] == old(rows)[k]
    {
      if session == "" || agent == "" || key.vault == "" || c.operation == "" || key.memory == "" {
        return false;
      }
      if c.operation !in OPERATIONS {
        return false;
      }
      rows := Upsert(rows, key, session, agent, c, id, now);
      return true;
    }

    method FetchPendingEntries(now: int, limit: nat) returns (entries: seq<Entry>)
      requires Valid()
      ensures Fetched(rows, now, limit, entries)
    {
      var keys := Ranking.Choose(FetchRank(rows, now), limit);
      ChosenIsFetched(rows, now, limit, keys);
      entries := EntriesOf(rows, keys);
    }

    method ProcessEntry(e: Entry, r: Reply, now: int)
      requires Valid() && e.key in rows && rows[e.key] == e.row && 0 <= r.jitter < JITTER
      modifies this`rows, this`pushed
      ensures Valid() && rows == old(rows)[e.key := Processed(e, r, wired, now)]
      ensures pushed == old(pushed) + if Pushes(r, wired) then [PushOf(e)] else []
      ensures wired && r.markOk && r.pushOk ==> Holds(RemoteOf(pushed), e.key, e.row)
      ensures forall k, row | k != e.key :: Holds(RemoteOf(pushed), k, row) == Holds(RemoteOf(old(pushed)), k, row)
      ensures rows[e.key].content == e.row.content && rows[e.key].agent == e.row.agent && rows[e.key].id == e.row.id
      ensures !r.markOk ==> rows[e.key] == e.row
      ensures r.markOk && !r.finishOk ==> rows[e.key].status.InProgress? && rows[e.key].attempts == e.row.attempts
      ensures r.markOk && r.finishOk && (!wired || r.pushOk) ==>
                rows[e.key].status.Completed? && rows[e.key].attempts == e.row.attempts && rows[e.key].error == ""
      ensures r.markOk && r.finishOk && wired && !r.pushOk ==>
                && rows[e.key].attempts == e.row.attempts + 1 && rows[e.key].error == r.error
                && rows[e.key].status == (if 0 < e.row.maxAttempts <= e.row.attempts + 1 then Dead else Pending)
                && now + 30 <= rows[e.key].nextRetry <= now + 3605
    {
      hide RetryAt, SetStatus, SetBackoff, PushOf, UniqueIds, RemoteOf, Holds;
      PushHolds(pushed, e);
      RetryAtBounds(now, e.row.attempts + 1, r.jitter);
      if !r.markOk {
        return;
      }
      StatusAt(rows, e.key, InProgress);
      rows := SetStatus(rows, e.row.id, InProgress);
      if wired {
        if r.pushOk || r.kept {
          pushed := pushed + [PushOf(e)];
        }
        if !r.pushOk {
          var newAttempts := e.row.attempts + 1;
          var status := if e.row.maxAttempts > 0 && newAttempts >= e.row.maxAttempts then Dead else Pending;
          if r.finishOk {
            var nextRetry := RetryAt(now, newAttempts, r.jitter);
            BackoffAt(rows, e.key, status, r.error, newAttempts, nextRetry);
            rows := SetBackoff(rows, e.row.id, status, r.error, newAttempts, nextRetry);
          }
          return;
        }
      }
      if r.finishOk {
        StatusAt(rows, e.key, Completed);
        rows := SetStatus(rows, e.row.id, Completed);
      }
    }

    /** The loop of `processBatch`; replies[i] is the world's answer for the i-th entry. */
    method ProcessAll(entries: seq<Entry>, replies: seq<Reply>, now: int)
      requires Valid() && |replies| >= |entries| && RepliesOk(replies)
      requires forall i | 0 <= i < |entries| :: entries[i].key in rows && rows[entries[i].key] == entries[i].row
      requires forall i, j | 0 <= i < j < |entries| :: entries[i].key != entries[j].key
      modifies this`rows, this`pushed
      ensures Valid() && rows == TableAfter(old(rows), entries, replies, wired, now)
      ensures pushed == old(pushed) + PushLog(entries, replies, wired)
      ensures forall j | 0 <= j < |entries| && wired && replies[j].markOk && replies[j].pushOk ::
                Holds(RemoteOf(pushed), entries[j].key, entries[j].row)
    {
      hide Processed, PushOf, Pushes, UniqueIds, TableAfter, PushLog, RemoteOf, Holds;
      NothingProcessed(rows, replies, wired, now);
      assert pushed + [] == pushed;
      for i := 0 to |entries|
        invariant Valid() && rows == TableAfter(old(rows), entries[..i], replies, wired, now)
        invariant forall j | i <= j < |entries| :: entries[j].key in rows && rows[entries[j].key] == entries[j].row
        invariant pushed == old(pushed) + PushLog(entries[..i], replies, wired)
        invariant forall j | 0 <= j < i && wired && replies[j].markOk && replies[j].pushOk ::
                    Holds(RemoteOf(pushed), entries[j].key, entries[j].row)
      {
        TableAfterStep(old(rows), entries, replies, wired, now, i);
        ProcessEntry(entries[i], replies[i], now);
        PushLogStep(old(pushed), entries, replies, wired, i);
      }
      assert entries[..|entries|] == entries;
    }

    /** `processBatch` with nothing else running. */
    method ProcessBatch(now: int, replies: seq<Reply>) returns (entries: seq<Entry>)
      requires Valid() && |replies| >= BATCH && RepliesOk(replies)
      modifies this`rows, this`pushed
      ensures Valid() && Fetched(old(rows), now, 10, entries)
      ensures rows == Purge(TableAfter(old(rows), entries, replies, wired, now), now)
      ensures pushed == old(pushed) + PushLog(entries, replies, wired)
      ensures forall j | 0 <= j < |entries| && wired && replies[j].markOk && replies[j].pushOk ::
                Holds(RemoteOf(pushed), entries[j].key, entries[j].row)
    {
      entries := FetchPendingEntries(now, BATCH);
      ProcessAll(entries, replies, now);
      rows := Purge(rows, now);
    }
  }

  /** The table once every entry's row was replaced by what its reply made of it. */
  function TableAfter(rows: Table, entries: seq<Entry>, replies: seq<Reply>, wired: bool, now: int): Table
    requires |entries| <= |replies| && RepliesOk(replies)
  {
    if entries == [] then rows else
    var n := |entries| - 1;
    TableAfter(rows, entries[..n], replies, wired, now)[entries[n].key := Processed(entries[n], replies[n], wired, now)]
  }

  /** The pushes of a batch that the cloud took, in entry order. */
  function PushLog(entries: seq<Entry>, replies: seq<Reply>, wired: bool): seq<Push>
    requires |entries| <= |replies|
  {
    if entries == [] then [] else
    var n := |entries| - 1;
    PushLog(entries[..n], replies, wired) + if Pushes(replies[n], wired) then [PushOf(entries[n])] else []
  }

  lemma NothingProcessed(rows: Table, replies: seq<Reply>, wired: bool, now: int)
    requires RepliesOk(replies)
    ensures TableAfter(rows, [], replies, wired, now) == rows && PushLog([], replies, wired) == []
  {
  }

  lemma PushLogStep(before: seq<Push>, entries: seq<Entry>, replies: seq<Reply>, wired: bool, i: nat)
    requires i < |entries| <= |replies|
    ensures before + PushLog(entries[..i + 1], replies, wired)
         == before + PushLog(entries[..i], replies, wired)
            + if Pushes(replies[i], wired) then [PushOf(entries[i])] else []
  {
    assert entries[..i + 1][..i] == entries[..i];
  }

  lemma TableAfterStep(rows: Table, entries: seq<Entry>, replies: seq<Reply>, wired: bool, now: int, i: nat)
    requires i < |entries| <= |replies| && RepliesOk(replies)
    ensures TableAfter(rows, entries[..i + 1], replies, wired, now)
         == TableAfter(rows, entries[..i], replies, wired, now)
                [entries[i].key := Processed(entries[i], replies[i], wired, now)]
    ensures PushLog(entries[..i + 1], replies, wired)
         == PushLog(entries[..i], replies, wired) + if Pushes(replies[i], wired) then [PushOf(entries[i])] else []
  {
    assert entries[..i + 1][..i] == entries[..i];
  }

  lemma StatusAt(rows: Table, k: Key, status: Status)
    requires UniqueIds(rows) && k in rows
    ensures SetStatus(rows, rows[k].id, status) == rows[k := rows[k].(status := status, error := "")]
    ensures UniqueIds(SetStatus(rows, rows[k].id, status))
  {
  }

  lemma BackoffAt(rows: Table, k: Key, status: Status, error: string, attempts: nat, nextRetry: int)
    requires UniqueIds(rows) && k in rows
    ensures SetBackoff(rows, rows[k].id, status, error, attempts, nextRetry)
         == rows[k := rows[k].(status := status, error := error, attempts := attempts, nextRetry := nextRetry)]
    ensures UniqueIds(SetBackoff(rows, rows[k].id, status, error, attempts, nextRetry))
  {
  }
}
