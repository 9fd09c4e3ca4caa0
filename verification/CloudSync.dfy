/**
 Pulling the cloud vault (internal/agents/cloud_vault.go): paged fetches with in-process
 retries, and the sync marker.
 */
module CloudSync {
  import opened Options

  const MAX_TRIES := 3

  datatype Entry = Entry(memory: string, content: string, createdAt: int)

  /** The server's answer to one fetch; ctxDone: the context ended in the pause after a failure. */
  datatype Reply = Failed(ctxDone: bool) | Page(entries: seq<Entry>, next: string)

  datatype Marker = Marker(complete: bool, lastSyncedAt: int)

  /** Running: every reply there was has been consumed, and the sync is still fetching. */
  datatype Status = Done | Error | Running

  // ---------------------------------------------------------------- reading a list of replies

  /** The entries of all pages, in order. */
  function EntriesOf(replies: seq<Reply>): seq<Entry> {
    if replies == [] then [] else
    var r := replies[|replies| - 1];
    EntriesOf(replies[..|replies| - 1]) + if r.Page? then r.entries else []
  }

  function Pages(replies: seq<Reply>): nat {
    if replies == [] then 0 else Pages(replies[..|replies| - 1]) + if replies[|replies| - 1].Page? then 1 else 0
  }

  /** The cursor of the next fetch: where the last page pointed. */
  function Cursor(replies: seq<Reply>): string {
    if replies == [] then "" else
    var r := replies[|replies| - 1];
    if r.Page? then r.next else Cursor(replies[..|replies| - 1])
  }

  /** Failures since the last page. */
  function Failures(replies: seq<Reply>): nat {
    if replies == [] || replies[|replies| - 1].Page? then 0 else 1 + Failures(replies[..|replies| - 1])
  }

  /** Where a sync that consumed these replies stands. */
  function StatusAfter(replies: seq<Reply>): Status {
    if replies == [] then Running else
    var r := replies[|replies| - 1];
    if r.Page? then (if r.next == "" then Done else Running)
    else if Failures(replies) >= MAX_TRIES || r.ctxDone then Error
    else Running
  }

  /** The replies a sync consumes: up to the first that ends it. */
  ghost predicate Consumes(replies: seq<Reply>, n: nat) {
    && n <= |replies|
    && (forall k | 0 <= k < n :: StatusAfter(replies[..k]) == Running)
    && (StatusAfter(replies[..n]) == Running ==> n == |replies|)
  }

  function MaxCreated(floor: int, entries: seq<Entry>): int {
    if entries == [] then floor else
    var m, e := MaxCreated(floor, entries[..|entries| - 1]), entries[|entries| - 1];
    if e.createdAt > m then e.createdAt else m
  }

  lemma {:induction false} MaxCreatedBounds(floor: int, entries: seq<Entry>)
    ensures MaxCreated(floor, entries) >= floor
    ensures forall e <- entries :: MaxCreated(floor, entries) >= e.createdAt
    decreases |entries|
  {
    if entries != [] {
      MaxCreatedBounds(floor, entries[..|entries| - 1]);
      assert forall e <- entries :: e in entries[..|entries| - 1] || e == entries[|entries| - 1];
    }
  }

  lemma OneMore(replies: seq<Reply>, n: nat)
    requires n < |replies|
    ensures replies[..n + 1][..n] == replies[..n]
  {
  }

  /** What one more reply does to the readings. */
  lemma NextReply(replies: seq<Reply>, n: nat)
    requires n < |replies|
    ensures
      var before, after, r := replies[..n], replies[..n + 1], replies[n];
      && Failures(after) == (if r.Page? then 0 else Failures(before) + 1)
      && Cursor(after) == (if r.Page? then r.next else Cursor(before))
      && StatusAfter(after) == if r.Page? then (if r.next == "" then Done else Running)
                               else if Failures(before) + 1 >= MAX_TRIES || r.ctxDone then Error
                               else Running
  {
    OneMore(replies, n);
  }

  // ---------------------------------------------------------------- withRetry

  /** One page fetch with retries, starting at reply `from`; `cursors` logs the cursor of every fetch made. */
  method FetchPage(replies: seq<Reply>, from: nat, cursor: string, log: seq<string>)
    returns (status: Status, entries: seq<Entry>, next: string, n: nat, cursors: seq<string>)
    requires from <= |replies| && StatusAfter(replies[..from]) == Running && Failures(replies[..from]) == 0
    requires cursor == Cursor(replies[..from]) && Logged(replies, from, log)
    ensures from <= n <= |replies| && n - from <= 3 && Logged(replies, n, cursors)
    ensures forall k | from <= k < n :: StatusAfter(replies[..k]) == Running
    ensures forall k | from <= k < n - 1 :: replies[k].Failed?
    ensures status == Done <==> n > from && replies[n - 1].Page?
    ensures status == Done ==> entries == replies[n - 1].entries && next == replies[n - 1].next
    ensures status == Error <==> StatusAfter(replies[..n]) == Error
    ensures status == Error <==> n > from && replies[n - 1].Failed? && (replies[n - 1].ctxDone || n == from + 3)
    ensures status == Running ==> n == |replies| && StatusAfter(replies[..n]) == Running
    ensures forall k | from <= k < n - 1 :: !replies[k].ctxDone
    ensures status != Done ==> forall k | from <= k < n :: replies[k].Failed?
  {
    hide StatusAfter, Failures, Cursor;
    n, cursors := from, log;
    entries, next := [], "";
    for i := 0 to MAX_TRIES
      invariant i < MAX_TRIES && n == from + i <= |replies| && Failures(replies[..n]) == i
          && Cursor(replies[..n]) == cursor
      invariant Logged(replies, n, cursors) && StatusAfter(replies[..n]) == Running
      invariant forall k | from <= k < n :: StatusAfter(replies[..k]) == Running && replies[k].Failed?
      invariant forall k | from <= k < n :: !replies[k].ctxDone
    {
      if n == |replies| {
        return Running, entries, next, n, cursors;
      }
      NextReply(replies, n);
      cursors := cursors + [cursor];
      n := n + 1;
      if replies[n - 1].Page? {
        return Done, replies[n - 1].entries, replies[n - 1].next, n, cursors;
      }
      if i < MAX_TRIES - 1 {
        if replies[n - 1].ctxDone {
          return Error, entries, next, n, cursors;
        }
      } else {
        return Error, entries, next, n, cursors;
      }
    }
    assert false;
  }

  /** Fetch k used the cursor of the last page before it. */
  ghost predicate Logged(replies: seq<Reply>, n: nat, cursors: seq<string>) {
    n <= |replies| && |cursors| == n && forall k | 0 <= k < n :: cursors[k] == Cursor(replies[..k])
  }

  // ---------------------------------------------------------------- the page loop

  /** The loop shared by both syncs; `floor` starts the running maximum of CreatedAt. */
  method Pull(replies: seq<Reply>, floor: int)
    returns (status: Status, delivered: seq<Entry>, maxCreatedAt: int, n: nat, cursors: seq<string>)
    ensures Consumes(replies, n) && status == StatusAfter(replies[..n])
    ensures delivered == EntriesOf(replies[..n]) && maxCreatedAt == MaxCreated(floor, delivered)
    ensures Logged(replies, n, cursors)
    ensures n <= 3 * (Pages(replies[..n]) + 1)
    ensures status == Done ==> n <= 3 * Pages(replies[..n])
  {
    var cursor := "";
    delivered, maxCreatedAt, n, cursors := [], floor, 0, [];
    while true
      invariant n <= |replies| && StatusAfter(replies[..n]) == Running && Failures(replies[..n]) == 0
      invariant forall k | 0 <= k < n :: StatusAfter(replies[..k]) == Running
      invariant cursor == Cursor(replies[..n]) && Logged(replies, n, cursors)
      invariant delivered == EntriesOf(replies[..n]) && maxCreatedAt == MaxCreated(floor, delivered)
      invariant n <= MAX_TRIES * Pages(replies[..n])
      decreases |replies| - n
    {
      var entries, next, m;
      status, entries, next, m, cursors := FetchPage(replies, n, cursor, cursors);
      if status != Done {
        FailuresAddNothing(replies, n, m);
        n := m;
        return;
      }
      PageAdds(replies, n, m);
      delivered, maxCreatedAt := Deliver(entries, delivered, floor, maxCreatedAt);
      n := m;
      if next == "" {
        return;
      }
      status := Running;
      cursor := next;
    }
  }

  /** onEntry for each entry of a page, keeping the running maximum. */
  method Deliver(entries: seq<Entry>, before: seq<Entry>, floor: int, mark: int)
    returns (delivered: seq<Entry>, maxCreatedAt: int)
    requires mark == MaxCreated(floor, before)
    ensures delivered == before + entries && maxCreatedAt == MaxCreated(floor, delivered)
  {
    delivered, maxCreatedAt := before, mark;
    for j := 0 to |entries|
      invariant delivered == before + entries[..j] && maxCreatedAt == MaxCreated(floor, delivered)
    {
      assert (delivered + [entries[j]])[..|delivered|] == delivered;
      delivered := delivered + [entries[j]];
      if entries[j].createdAt > maxCreatedAt {
        maxCreatedAt := entries[j].createdAt;
      }
    }
  }

  /** Failures from `from` on and then one page: the page is all they add. */
  lemma PageAdds(replies: seq<Reply>, from: nat, m: nat)
    requires from < m <= |replies| && replies[m - 1].Page? && forall k | from <= k < m - 1 :: replies[k].Failed?
    ensures EntriesOf(replies[..m]) == EntriesOf(replies[..from]) + replies[m - 1].entries
    ensures Pages(replies[..m]) == Pages(replies[..from]) + 1
    ensures Cursor(replies[..m]) == replies[m - 1].next && Failures(replies[..m]) == 0
    ensures StatusAfter(replies[..m]) == if replies[m - 1].next == "" then Done else Running
  {
    OneMore(replies, m - 1);
    FailuresAddNothing(replies, from, m - 1);
  }

  lemma {:induction false} FailuresAddNothing(replies: seq<Reply>, from: nat, n: nat)
    requires from <= n <= |replies| && forall k | from <= k < n :: replies[k].Failed?
    ensures EntriesOf(replies[..n]) == EntriesOf(replies[..from]) && Pages(replies[..n]) == Pages(replies[..from])
    decreases n
  {
    if from < n {
      OneMore(replies, n - 1);
      FailuresAddNothing(replies, from, n - 1);
    }
  }

  /** The marker store; a failed write is only logged. */
  class MarkerStore {
    var marker: Marker

    constructor (m: Marker) ensures marker == m { marker := m; }

    method WriteSyncMarker(m: Marker, writeOk: bool)
      modifies this
      ensures marker == if writeOk then m else old(marker)
    {
      if writeOk {
        marker := m;
      }
    }
  }

  method BulkSync(kv: MarkerStore, replies: seq<Reply>, now: int, writeOk: bool)
    returns (status: Status, delivered: seq<Entry>, ghost n: nat)
    modifies kv
    ensures Consumes(replies, n) && status == StatusAfter(replies[..n]) && delivered == EntriesOf(replies[..n])
    ensures kv.marker == if status == Done && writeOk then Marker(true, now) else old(kv.marker)
  {
    var maxCreatedAt, taken, cursors;
    status, delivered, maxCreatedAt, taken, cursors := Pull(replies, 0);
    n := taken;
    if status == Done {
      kv.WriteSyncMarker(Marker(true, now), writeOk);
    }
  }

  method IncrementalSync(kv: MarkerStore, marker: Marker, replies: seq<Reply>, now: int, writeOk: bool)
    returns (status: Status, delivered: seq<Entry>, ghost n: nat)
    modifies kv
    ensures Consumes(replies, n) && status == StatusAfter(replies[..n]) && delivered == EntriesOf(replies[..n])
    ensures !(status == Done && writeOk) ==> kv.marker == old(kv.marker)
    ensures status == Done && writeOk ==>
              && kv.marker.complete && kv.marker.lastSyncedAt >= marker.lastSyncedAt && kv.marker.lastSyncedAt >= now
              && (forall e <- delivered :: kv.marker.lastSyncedAt >= e.createdAt)
              && (kv.marker.lastSyncedAt in {now, marker.lastSyncedAt}
                  || exists e <- delivered :: e.createdAt == kv.marker.lastSyncedAt)
  {
    var maxCreatedAt, taken, cursors;
    status, delivered, maxCreatedAt, taken, cursors := Pull(replies, marker.lastSyncedAt);
    n := taken;
    if status == Done {
      var newTs := now;
      if maxCreatedAt > newTs {
        newTs := maxCreatedAt;
      }
      MaxCreatedBounds(marker.lastSyncedAt, delivered);
      MaxCreatedIsSome(marker.lastSyncedAt, delivered);
      kv.WriteSyncMarker(Marker(true, newTs), writeOk);
    }
  }

  // ---------------------------------------------------------------- two syncs in a row

  /**
   The server's pages hold exactly the visible entries it lists for that mark; `newer` is its
   test, None asks for all.
   */
  ghost predicate Serves(visible: set<Entry>, newer: (Entry, int) -> bool, since: Option<int>, replies: seq<Reply>) {
    forall n: nat | Consumes(replies, n) && StatusAfter(replies[..n]) == Done ::
      forall e :: e in EntriesOf(replies[..n]) <==> e in visible && Asked(newer, since, e)
  }

  predicate Asked(newer: (Entry, int) -> bool, since: Option<int>, e: Entry) { since.None? || newer(e, since.value) }

  /**
   A bulk or incremental sync followed by an incremental one, both successful. What the
   server holds by then was delivered exactly if everything that arrived between the two is
   newer than the mark the first one left, which is never below its own clock.
   */
  method SyncTwice(kv: MarkerStore, bulk: bool, first: seq<Reply>, firstNow: int, second: int -> seq<Reply>,
      secondNow: int,
                   ghost before: set<Entry>, ghost after: set<Entry>, ghost newer: (Entry, int) -> bool)
    returns (done: bool, mark: int, ghost delivered: seq<Entry>)
    requires Serves(before, newer, if bulk then None else Some(kv.marker.lastSyncedAt), first)
    requires forall m :: Serves(after, newer, Some(m), second(m))
    modifies kv
    ensures done ==> mark >= firstNow
    ensures var since := if bulk then None else Some(old(kv.marker.lastSyncedAt));
            done ==>
              ((forall e <- after | Asked(newer, since, e) :: e in delivered)
               <==> forall e <- after - before | Asked(newer, since, e) :: newer(e, mark))
  {
    ghost var since := if bulk then None else Some(kv.marker.lastSyncedAt);
    var status, got;
    ghost var n;
    if bulk {
      status, got, n := BulkSync(kv, first, firstNow, true);
    } else {
      status, got, n := IncrementalSync(kv, kv.marker, first, firstNow, true);
    }
    mark := kv.marker.lastSyncedAt;
    if status != Done {
      return false, mark, [];
    }
    assert forall e :: e in got <==> e in before && Asked(newer, since, e);
    ghost var m;
    var more;
    status, more, m := IncrementalSync(kv, kv.marker, second(mark), secondNow, true);
    if status != Done {
      return false, mark, [];
    }
    assert Serves(after, newer, Some(mark), second(mark));
    assert forall e :: e in more <==> e in after && newer(e, mark);
    return true, mark, got + more;
  }

  lemma {:induction false} MaxCreatedIsSome(floor: int, entries: seq<Entry>)
    ensures MaxCreated(floor, entries) == floor || exists e <- entries :: e.createdAt == MaxCreated(floor, entries)
    decreases |entries|
  {
    if entries != [] {
      MaxCreatedIsSome(floor, entries[..|entries| - 1]);
    }
  }

  // ---------------------------------------------------------------- against a steady server

  /** Entries of the first n pages along the cursor chain of a server that answers each cursor with one page. */
  function Chain(server: string -> (seq<Entry>, string), n: nat): (seq<Entry>, string) {
    if n == 0 then ([], "") else
    var (entries, cursor) := Chain(server, n - 1);
    (entries + server(cursor).0, server(cursor).1)
  }

  /**
   If each page is the server's answer to the cursor it was asked with, the sync delivers the
   chain, each page once.
   */
  lemma {:induction false} DeliversChain(server: string -> (seq<Entry>, string), replies: seq<Reply>)
    requires forall k | 0 <= k < |replies| && replies[k].Page? ::
               replies[k].entries == server(Cursor(replies[..k])).0 && replies[k].next == server(Cursor(replies[..k])).1
    ensures (EntriesOf(replies), Cursor(replies)) == Chain(server, Pages(replies))
    decreases |replies|
  {
    if replies != [] {
      var n := |replies| - 1;
      assert forall k | 0 <= k < n :: replies[..n][..k] == replies[..k];
      DeliversChain(server, replies[..n]);
      if replies[n].Page? {
        assert replies[n].entries == server(Cursor(replies[..n])).0
            && replies[n].next == server(Cursor(replies[..n])).1;
      } else {
        assert EntriesOf(replies[..n]) + [] == EntriesOf(replies[..n]);
      }
    }
  }
}
