/**
 Replication of agent memories to channel members (internal/agent/memory_replicator.go).

 `MemoryReplicator` is the object with its queue table, run on its own. ReplicationProtocol
 interleaves its database operations with fan-out goroutines, any number of drainers and
 crashes.
 */
module ReplicationQueue {
  import opened Options
  import Ranking
  import Slug

  const MAX_ATTEMPTS := 5
  const WEEK := 7 * 24 * 3600

  /** UNIQUE(target_vault, concept_key, space_id). */
  datatype Key = Key(vault: string, concept: string, space: string)

  datatype Payload = Payload(concept: string, content: string, memType: string, tags: seq<string>, spaceName: string,
      producer: string)

  /** status is 'dead' or 'pending'. Ids are reusable: the column is not AUTOINCREMENT. */
  datatype Row = Row(id: nat, payload: Payload, dead: bool, attempts: nat, nextRetry: int, createdAt: int)

  type Table = map<Key, Row>

  function KeyOf(vault: string, p: Payload, space: string): Key {
    Key(vault, Slug.Normalize(p.concept), space)
  }

  /** backoffDuration, in seconds. */
  function Backoff(attempt: nat): nat {
    if attempt <= 1 then 5
    else if attempt == 2 then 30
    else if attempt == 3 then 120
    else if attempt == 4 then 600
    else 3600
  }

  /** The waits never shrink, and there are just five. */
  lemma BackoffGrows(attempt: nat)
    ensures 5 <= Backoff(attempt) <= Backoff(attempt + 1) <= 3600
    ensures attempt < 5 ==> Backoff(attempt + 1) == [5, 30, 120, 600, 3600][attempt]
    ensures attempt >= 5 ==> Backoff(attempt) == 3600
  {
  }

  // ---------------------------------------------------------------- the SQL statements

  function Upsert(rows: Table, key: Key, p: Payload, id: nat, now: int): Table {
    if key !in rows then rows[key := Row(id, p, false, 0, now + Backoff(0), now)]
    else if rows[key].dead then
      rows[key := rows[key].(payload := p, dead := false, attempts := 0, nextRetry := now + Backoff(0))]
    else rows[key := rows[key].(payload := p)]
  }

  /**
   The table after an upsert, field by field: a new row, due in 5 s; of a live row the payload
   and nothing else; a dead row back with all attempts; and no other row.
   */
  predicate Enqueued(was: Table, rows: Table, key: Key, p: Payload, id: nat, now: int) {
    && key in rows && rows - {key} == was - {key}
    && (key !in was ==> rows[key] == Row(id, p, false, 0, now + 5, now))
    && (key in was && was[key].dead ==> rows[key] == Row(was[key].id, p, false, 0, now + 5, was[key].createdAt))
    && (key in was && !was[key].dead ==> rows[key] == was[key].(payload := p))
  }

  /** The UPDATE after a failed drain; attempts is the drainer's (possibly stale) snapshot. */
  function MarkFailed(rows: Table, id: nat, attempts: nat, now: int): Table {
    map k | k in rows ::
      if rows[k].id == id
      then rows[k].(attempts := attempts + 1, dead := attempts + 1 >= MAX_ATTEMPTS,
                    nextRetry := now + Backoff(attempts + 1))
      else rows[k]
  }

  predicate Purgeable(r: Row, now: int) { r.dead && r.createdAt < now - WEEK }

  function Purge(rows: Table, now: int): Table {
    map k | k in rows && !Purgeable(rows[k], now) :: rows[k]
  }

  predicate Due(r: Row, now: int) { !r.dead && r.nextRetry <= now }

  /** pending means attempts are left, dead means the last one was spent. */
  predicate StatusOk(r: Row) { if r.dead then r.attempts == MAX_ATTEMPTS else r.attempts < MAX_ATTEMPTS }

  predicate TableOk(rows: Table) {
    && (forall k <- rows :: k == KeyOf(k.vault, rows[k].payload, k.space))
    && (forall k <- rows :: StatusOk(rows[k]))
    && (forall k <- rows, l <- rows :: rows[k].id == rows[l].id ==> k == l)
  }

  // ---------------------------------------------------------------- the vault

  /** What a vault holds: memories stored under a `replicated_concept:` tag. */
  datatype Replica = Replica(vault: string, concept: string, payload: Payload)

  type Replicas = set<Replica>

  /** Some memory is stored under the key, whatever its content. */
  predicate Replicated(v: Replicas, k: Key) { exists r <- v :: r.vault == k.vault && r.concept == k.concept }

  /**
   What `CallTool` returns: a transport error, or a result with so many content blocks, flagged
   as a tool error or not.
   */
  datatype CallResult = CallError | Result(blocks: nat, isError: bool)

  /** `err == nil && findResult != nil && len(findResult.Content) > 0`: the tool-error flag is not looked at. */
  predicate TakenAsFound(a: CallResult) { a.Result? && a.blocks > 0 }

  /** `err == nil` after the write. */
  predicate TakenAsStored(a: CallResult) { a.Result? }

  /**
   How the outside world answers one `replicateTo`, without any promise: both calls may
   return anything, `stored` says whether the vault kept the memory it was sent, and the
   final database statement may fail. `at` is the clock when the outcome is recorded.
   */
  datatype Reply = Reply(acquired: bool, find: CallResult, remember: CallResult, stored: bool, dbOk: bool, at: int)

  /** The answers on which `replicateTo` reports success. */
  predicate Acknowledged(r: Reply) { r.acquired && (TakenAsFound(r.find) || TakenAsStored(r.remember)) }

  function Written(v: Replicas, vault: string, p: Payload, r: Reply): Replicas {
    if r.acquired && !TakenAsFound(r.find) && r.stored then v + {Replica(vault, Slug.Normalize(p.concept), p)} else v
  }

  function Dequeued(rows: Table, k: Key, r: Reply): Table {
    if Acknowledged(r) && r.dbOk then rows - {k} else rows
  }

  /**
   Exactly the answers that take a row off the queue with nothing in the vault: nothing was
   there before, and a find came back with some content, or a write that was not kept came
   back without a transport error.
   */
  lemma SilentLossIff(rows: Table, v: Replicas, vault: string, p: Payload, space: string, r: Reply)
    ensures var k := KeyOf(vault, p, space);
            (k in rows && k !in Dequeued(rows, k, r) && !Replicated(Written(v, vault, p, r), k))
            <==> k in rows && r.dbOk && r.acquired && !Replicated(v, k)
                 && (TakenAsFound(r.find) || (TakenAsStored(r.remember) && !r.stored))
  {
    hide Slug.Normalize;
    var k := KeyOf(vault, p, space);
    assert Replica(vault, k.concept, p).vault == k.vault;
    if Replicated(v, k) {
      var x :| x in v && x.vault == k.vault && x.concept == k.concept;
      assert x in Written(v, vault, p, r);
    }
  }

  // ---------------------------------------------------------------- the object

  datatype Entry = Entry(key: Key, row: Row)

  function DueRank(rows: Table, now: int): map<Key, int> {
    map k | k in rows && Due(rows[k], now) :: rows[k].nextRetry
  }

  function EntriesOf(rows: Table, keys: seq<Key>): (entries: seq<Entry>)
    requires forall k <- keys :: k in rows
    ensures |entries| == |keys| && forall i | 0 <= i < |keys| :: entries[i] == Entry(keys[i], rows[keys[i]])
  {
    seq(|keys|, i requires 0 <= i < |keys| => Entry(keys[i], rows[keys[i]]))
  }

  predicate Listed(entries: seq<Entry>, k: Key) { exists i | 0 <= i < |entries| :: entries[i].key == k }

  /**
   Rows of the table that are not dead and whose retry time has come, each once, those that
   wait longest first; a row left out finds the limit reached and waits no longer than any taken.
   */
  ghost predicate Selected(rows: Table, now: int, limit: nat, entries: seq<Entry>) {
    && |entries| <= limit
    && (forall e <- entries :: e.key in rows && e.row == rows[e.key] && !e.row.dead && e.row.nextRetry <= now)
    && (forall i, j | 0 <= i < j < |entries| ::
          entries[i].key != entries[j].key && entries[i].row.nextRetry <= entries[j].row.nextRetry)
    && (forall k <- rows | !rows[k].dead && rows[k].nextRetry <= now && !Listed(entries, k) ::
          |entries| == limit && forall e <- entries :: e.row.nextRetry <= rows[k].nextRetry)
  }

  /** The query's order by rank is the order by retry time. */
  lemma ChosenIsSelected(rows: Table, now: int, limit: nat, keys: seq<Key>)
    requires Ranking.Chosen(DueRank(rows, now), limit, keys)
    ensures forall k <- keys :: k in rows
    ensures Selected(rows, now, limit, EntriesOf(rows, keys))
  {
    assert forall i | 0 <= i < |keys| :: keys[i] in DueRank(rows, now);
    var entries := EntriesOf(rows, keys);
    forall k <- rows | !rows[k].dead && rows[k].nextRetry <= now && !Listed(entries, k)
      ensures |entries| == limit && forall e <- entries :: e.row.nextRetry <= rows[k].nextRetry
    {
      assert k in DueRank(rows, now).Keys;
    }
  }

  /** What one drained entry's row becomes: gone, charged one attempt, or untouched when the database failed. */
  function Drained(e: Entry, r: Reply): Option<Row> {
    if !r.dbOk then Some(e.row)
    else if Acknowledged(r) then None
    else Some(Charged(e.row, r.at))
  }

  function Charged(row: Row, now: int): Row {
    row.(attempts := row.attempts + 1, dead := row.attempts + 1 >= MAX_ATTEMPTS,
         nextRetry := now + Backoff(row.attempts + 1))
  }

  function RowAt(rows: Table, k: Key): Option<Row> {
    if k in rows then Some(rows[k]) else None
  }

  class MemoryReplicator {
    var rows: Table
    var replicas: Replicas

    ghost predicate Valid() reads this { TableOk(rows) }

    constructor ()
      ensures Valid() && rows == map[] && replicas == {}
    {
      rows, replicas := map[], {};
    }

    method EnqueueRetry(vault: string, space: string, p: Payload, id: nat, now: int)
      requires Valid() && forall k <- rows :: rows[k].id != id
      modifies this`rows
      ensures Valid() && rows == Upsert(old(rows), KeyOf(vault, p, space), p, id, now)
      ensures Enqueued(old(rows), rows, KeyOf(vault, p, space), p, id, now)
    {
      var key := KeyOf(vault, p, space);
      UpsertKeepsTable(rows, key, p, id, now);
      hide KeyOf, TableOk;
      if key !in rows {
        rows := rows[key := Row(id, p, false, 0, now + Backoff(0), now)];
      } else {
        var r := rows[key];
        rows := rows[key := r.(payload := p,
                               dead := false,
                               attempts := if r.dead then 0 else r.attempts,
                               nextRetry := if r.dead then now + Backoff(0) else r.nextRetry)];
      }
    }

    method ReplicateTo(vault: string, p: Payload, space: string, r: Reply) returns (ok: bool)
      requires Valid()
      modifies this
      ensures Valid() && ok == Acknowledged(r)
      ensures ok <==> r.acquired && ((r.find.Result? && r.find.blocks > 0) || r.remember.Result?)
      ensures replicas == Written(old(replicas), vault, p, r)
      ensures rows == Dequeued(old(rows), KeyOf(vault, p, space), r)
    {
      if !r.acquired {
        return false;
      }
      var conceptKey := Slug.Normalize(p.concept);
      if !(r.find.Result? && r.find.blocks > 0) {
        if r.stored {
          replicas := replicas + {Replica(vault, conceptKey, p)};
        }
        if r.remember.CallError? {
          return false;
        }
      }
      if r.dbOk {
        rows := rows - {Key(vault, conceptKey, space)};
      }
      return true;
    }

    method PurgeDeadEntries(now: int)
      requires Valid()
      modifies this`rows
      ensures Valid() && rows == Purge(old(rows), now) && rows.Keys <= old(rows).Keys
      ensures forall k <- old(rows) :: k in rows <==> !old(rows)[k].dead || old(rows)[k].createdAt >= now - 604800
      ensures forall k <- rows :: rows[k] == old(rows)[k]
    {
      rows := map k | k in rows && !(rows[k].dead && rows[k].createdAt < now - 7 * 24 * 3600) :: rows[k];
    }

    method SelectDue(now: int, limit: nat) returns (entries: seq<Entry>)
      ensures Selected(rows, now, limit, entries)
    {
      var keys := Ranking.Choose(DueRank(rows, now), limit);
      ChosenIsSelected(rows, now, limit, keys);
      entries := EntriesOf(rows, keys);
    }

    /** One iteration of the drain loop. */
    method DrainOne(e: Entry, r: Reply) returns (ok: bool)
      requires Valid() && RowAt(rows, e.key) == Some(e.row) && !e.row.dead
      modifies this
      ensures Valid() && ok == Acknowledged(r) && RowAt(rows, e.key) == Drained(e, r)
      ensures forall k | k != e.key :: RowAt(rows, k) == RowAt(old(rows), k)
      ensures replicas == Written(old(replicas), e.key.vault, e.row.payload, r)
      ensures e.key in rows <==> !(ok && r.dbOk)
      ensures !r.dbOk ==> rows == old(rows)
      ensures !ok && r.dbOk ==>
                && rows[e.key].payload == e.row.payload && rows[e.key].attempts == e.row.attempts + 1
                && (rows[e.key].dead <==> e.row.attempts == 4)
                && rows[e.key].nextRetry == r.at + Backoff(e.row.attempts + 1)
    {
      ok := ReplicateTo(e.key.vault, e.row.payload, e.key.space, r);
      if !ok && r.dbOk {
        MarkFailedAt(rows, e.key, r.at);
        rows := MarkFailed(rows, e.row.id, e.row.attempts, r.at);
      }
    }

    /**
     `drainBatch` with nothing else running; replies[i] is the world's answer for the i-th entry,
     `end` the clock at the recount.
     */
    method DrainBatch(now: int, limit: nat, replies: seq<Reply>, end: int) returns (entries: seq<Entry>, remaining: nat)
      requires Valid() && |replies| >= limit
      modifies this
      ensures Valid() && Selected(old(rows), now, limit, entries) && |entries| <= |replies|
      ensures BatchDone(old(rows), rows, entries, replies, |entries|)
      ensures replicas == WrittenAll(old(replicas), entries, replies, |entries|)
      ensures remaining == |set k | k in rows && !rows[k].dead && rows[k].nextRetry <= end|
    {
      hide Written, Drained, TableOk, Selected;
      entries := SelectDue(now, limit);
      for i := 0 to |entries|
        invariant Valid() && BatchDone(old(rows), rows, entries, replies, i)
        invariant replicas == WrittenAll(old(replicas), entries, replies, i)
      {
        var e, was := entries[i], rows;
        assert !Handled(entries, i, e.key);
        assert RowAt(rows, e.key) == RowAt(old(rows), e.key) == Some(e.row);
        var ok := DrainOne(e, replies[i]);
        BatchStep(old(rows), was, rows, entries, replies, i);
      }
      remaining := |set k | k in rows && !rows[k].dead && rows[k].nextRetry <= end|;
    }
  }

  /** One of the first n entries is the row of key k. */
  ghost predicate Handled(entries: seq<Entry>, n: nat, k: Key)
    requires n <= |entries|
  {
    exists j | 0 <= j < n :: entries[j].key == k
  }

  /** The first n entries were drained as their replies say, and no other row changed. */
  ghost predicate BatchDone(start: Table, rows: Table, entries: seq<Entry>, replies: seq<Reply>, n: nat)
    requires n <= |entries| <= |replies|
  {
    && (forall j | 0 <= j < n :: RowAt(rows, entries[j].key) == Drained(entries[j], replies[j]))
    && (forall k :: !Handled(entries, n, k) ==> RowAt(rows, k) == RowAt(start, k))
  }

  /** What the vaults hold once the first n entries were pushed. */
  function WrittenAll(v: Replicas, entries: seq<Entry>, replies: seq<Reply>, n: nat): Replicas
    requires n <= |entries| <= |replies|
  {
    if n == 0 then v
    else Written(WrittenAll(v, entries, replies, n - 1), entries[n - 1].key.vault, entries[n - 1].row.payload,
        replies[n - 1])
  }

  lemma BatchStep(start: Table, rows: Table, rows': Table, entries: seq<Entry>, replies: seq<Reply>, n: nat)
    requires n < |entries| <= |replies| && BatchDone(start, rows, entries, replies, n)
    requires forall i, j | 0 <= i < j < |entries| :: entries[i].key != entries[j].key
    requires RowAt(rows', entries[n].key) == Drained(entries[n], replies[n])
    requires forall k | k != entries[n].key :: RowAt(rows', k) == RowAt(rows, k)
    ensures BatchDone(start, rows', entries, replies, n + 1)
  {
    forall k | !Handled(entries, n + 1, k)
      ensures RowAt(rows', k) == RowAt(start, k)
    {
      assert entries[n].key != k;
      assert !Handled(entries, n, k);
    }
  }

  lemma UpsertKeepsTable(rows: Table, key: Key, p: Payload, id: nat, now: int)
    requires TableOk(rows) && (forall k <- rows :: rows[k].id != id) && key == KeyOf(key.vault, p, key.space)
    ensures TableOk(Upsert(rows, key, p, id, now))
  {
    hide KeyOf, Backoff;
  }

  lemma MarkFailedAt(rows: Table, key: Key, now: int)
    requires TableOk(rows) && key in rows && !rows[key].dead
    ensures var rows' := MarkFailed(rows, rows[key].id, rows[key].attempts, now);
            && TableOk(rows')
            && RowAt(rows', key) == Some(Charged(rows[key], now))
            && forall k | k != key :: RowAt(rows', k) == RowAt(rows, k)
  {
    hide KeyOf, Backoff;
    var rows' := MarkFailed(rows, rows[key].id, rows[key].attempts, now);
    assert forall k <- rows | k != key :: rows'[k] == rows[k];
  }
}
