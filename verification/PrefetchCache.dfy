/**
 The bounded TTL cache of prefetched memory (internal/agent/orchestrator_prefetch.go).
 Times are integers; the clock is a parameter of each call.
 */
module PrefetchCache {
  import opened Collections

  datatype Entry = Entry(prompt: string, expires: int, lastAccess: int)

  type Entries = map<string, Entry>

  // ---------------------------------------------------------------- specification of the two operations

  predicate Stale(e: Entry, now: int, maxAge: int) { now > e.expires || now - e.lastAccess > maxAge }

  function Expire(c: Entries, now: int, maxAge: int): Entries {
    map k | k in c && !Stale(c[k], now, maxAge) :: c[k]
  }

  function AfterGet(c: Entries, key: string, now: int, maxAge: int): Entries {
    var live := Expire(c, now, maxAge);
    if key in live then live[key := live[key].(lastAccess := now)] else live
  }

  function Got(c: Entries, key: string, now: int, maxAge: int): string {
    var live := Expire(c, now, maxAge);
    if key in live then live[key].prompt else ""
  }

  /** Least recently used: no other entry was accessed earlier. */
  predicate Oldest(c: Entries, victim: string) {
    victim in c && forall k <- c :: c[victim].lastAccess <= c[k].lastAccess
  }

  /** The eviction scan over the entries in a given order; "" stands for "none found yet". */
  function Scan(c: Entries, order: seq<string>): string
    requires forall k <- order :: k in c
  {
    if order == [] then "" else
    var k := order[|order| - 1];
    var lru := Scan(c, order[..|order| - 1]);
    if lru == "" || lru !in c || c[k].lastAccess < c[lru].lastAccess then k else lru
  }

  ghost predicate OrderOf(c: Entries, order: seq<string>) {
    && (forall k <- order :: k in c) && (forall k <- c :: k in order)
    && forall i, j | 0 <= i < j < |order| :: order[i] != order[j]
  }

  /** c' may follow c by a `set`: at capacity the scan's choice is evicted, in whatever order the map was walked. */
  ghost predicate AfterSet(c: Entries, c': Entries, key: string, e: Entry, maxSize: nat) {
    if key in c || |c| < maxSize then c' == c[key := e]
    else exists order :: OrderOf(c, order) && c' == (c - {Scan(c, order)})[key := e]
  }

  // ---------------------------------------------------------------- the object

  class Cache {
    const maxAge: int
    const maxSize: nat
    var entries: Entries

    ghost predicate Valid() reads this { 0 < maxSize && |entries| <= maxSize }

    constructor (maxAge: int, maxSize: int)
      ensures Valid() && entries == map[]
      ensures this.maxAge == if maxAge <= 0 then 1800 else maxAge
      ensures this.maxSize == if maxSize <= 0 then 100 else maxSize
    {
      this.maxAge := if maxAge <= 0 then 1800 else maxAge;
      this.maxSize := if maxSize <= 0 then 100 else maxSize;
      entries := map[];
    }

    method Get(key: string, now: int) returns (prompt: string)
      requires Valid()
      modifies this`entries
      ensures Valid() && entries == AfterGet(old(entries), key, now, maxAge)
      ensures prompt == Got(old(entries), key, now, maxAge)
    {
      var todo := entries.Keys;
      while todo != {}
        invariant todo <= entries.Keys <= old(entries).Keys
        invariant forall k <- entries :: entries[k] == old(entries)[k] && (k in todo || !Stale(entries[k], now, maxAge))
        invariant forall k <- old(entries).Keys :: k in entries || Stale(old(entries)[k], now, maxAge)
        decreases |todo|
      {
        var k :| k in todo;
        if now > entries[k].expires || now - entries[k].lastAccess > maxAge {
          entries := entries - {k};
        }
        todo := todo - {k};
      }
      assert entries == Expire(old(entries), now, maxAge);
      ExpireShrinks(old(entries), now, maxAge);
      if key !in entries {
        return "";
      }
      prompt := entries[key].prompt;
      entries := entries[key := entries[key].(lastAccess := now)];
    }

    method Set(key: string, content: string, ttl: int, now: int)
      requires Valid()
      modifies this`entries
      ensures Valid() && AfterSet(old(entries), entries, key, Entry(content, now + ttl, now), maxSize)
    {
      if key in entries {
        entries := entries[key := Entry(content, now + ttl, now)];
        return;
      }
      if |entries| >= maxSize {
        var lruKey := LruScan(entries);
        ScanIsMember(entries);
        entries := entries - {lruKey};
      }
      entries := entries[key := Entry(content, now + ttl, now)];
    }
  }

  /** The scan of `set`, in any map order. */
  method LruScan(c: Entries) returns (lruKey: string)
    requires c != map[]
    ensures exists order :: OrderOf(c, order) && lruKey == Scan(c, order)
  {
    lruKey := "";
    var lruTime := 0;
    var todo := c.Keys;
    ghost var order: seq<string> := [];
    while todo != {}
      invariant todo <= c.Keys
      invariant forall k <- order :: k in c && k !in todo
      invariant forall k <- c :: k in todo || k in order
      invariant forall i, j | 0 <= i < j < |order| :: order[i] != order[j]
      invariant lruKey == Scan(c, order)
      invariant order != [] ==> lruKey in c && lruTime == c[lruKey].lastAccess
      invariant order == [] ==> lruKey == ""
      decreases |todo|
    {
      var k :| k in todo;
      ghost var before := order;
      order := order + [k];
      assert order[..|order| - 1] == before;
      if lruKey == "" || c[k].lastAccess < lruTime {
        lruKey := k;
        lruTime := c[k].lastAccess;
      }
      todo := todo - {k};
    }
    assert OrderOf(c, order);
  }

  lemma ExpireShrinks(c: Entries, now: int, maxAge: int)
    ensures |Expire(c, now, maxAge)| <= |c|
  {
    SubsetSize(Expire(c, now, maxAge).Keys, c.Keys);
  }

  /** The scan picks an entry; without an empty key, one of the oldest. */
  lemma {:induction false} ScanIsOldest(c: Entries, order: seq<string>)
    requires order != [] && forall k <- order :: k in c
    ensures Scan(c, order) in order
    ensures "" !in c ==> forall k <- order :: c[Scan(c, order)].lastAccess <= c[k].lastAccess
    decreases |order|
  {
    var n := |order| - 1;
    if n > 0 {
      ScanIsOldest(c, order[..n]);
    }
    assert forall k <- order :: k in order[..n] || k == order[n];
  }

  lemma ScanIsMember(c: Entries)
    requires c != map[]
    ensures forall order :: OrderOf(c, order) ==> Scan(c, order) in c
  {
    forall order | OrderOf(c, order)
      ensures Scan(c, order) in c
    {
      ScanIsOldest(c, order);
    }
  }

  /** With an empty key cached, a scan that meets it first forgets it: the victim is another entry, oldest or not. */
  lemma {:induction false} EmptyKeySkipped(c: Entries, order: seq<string>)
    requires OrderOf(c, order) && |order| >= 2 && order[0] == ""
    requires forall k <- c :: k != "" ==> c[""].lastAccess < c[k].lastAccess
    ensures !Oldest(c, Scan(c, order))
  {
    ScanNotEmpty(c, order);
    ScanIsOldest(c, order);
  }

  lemma {:induction false} ScanNotEmpty(c: Entries, order: seq<string>)
    requires forall k <- order :: k in c
    requires |order| >= 2 && forall i | 0 < i < |order| :: order[i] != ""
    ensures Scan(c, order) != ""
    decreases |order|
  {
    if |order| > 2 {
      ScanNotEmpty(c, order[..|order| - 1]);
    } else {
      assert order[..1][..0] == [];
      assert order[..1][0] == order[0];
    }
  }

  /** The empty key is cached, is not alone, and was accessed before everything else. */
  predicate EmptyKeyOldest(c: Entries) {
    "" in c && |c| >= 2 && forall k <- c :: k != "" ==> c[""].lastAccess < c[k].lastAccess
  }

  /**
   The scan evicts a least recently used entry in every map order, except exactly when that
   entry is the empty key's.
   */
  lemma ScanIsLruIff(c: Entries)
    requires c != map[]
    ensures (forall order :: OrderOf(c, order) ==> Oldest(c, Scan(c, order))) <==> !EmptyKeyOldest(c)
  {
    if EmptyKeyOldest(c) {
      var rest := Enumerate(c.Keys - {""});
      var order := [""] + rest;
      assert OrderOf(c, order) && |order| == |c| by {
        assert forall k <- c :: k == "" || k in rest;
      }
      EmptyKeySkipped(c, order);
    } else {
      forall order | OrderOf(c, order)
        ensures Oldest(c, Scan(c, order))
      {
        ScanOfOrder(c, order);
      }
    }
  }

  lemma {:induction false} Enumerate(keys: set<string>) returns (order: seq<string>)
    ensures forall k :: k in order <==> k in keys
    ensures forall i, j | 0 <= i < j < |order| :: order[i] != order[j]
    ensures |order| == |keys|
    decreases |keys|
  {
    if k :| k in keys {
      var rest := Enumerate(keys - {k});
      order := [k] + rest;
    } else {
      order := [];
    }
  }

  lemma ScanOfOrder(c: Entries, order: seq<string>)
    requires OrderOf(c, order) && c != map[] && !EmptyKeyOldest(c)
    ensures Oldest(c, Scan(c, order))
  {
    if |c| == 1 {
      var only := order[0];
      assert c.Keys == {only} by {
        var others := c.Keys - {only};
        assert |others| == 0;
      }
      ScanIsOldest(c, order);
    } else {
      if "" in c {
        var k :| k in c && k != "" && c[k].lastAccess <= c[""].lastAccess;
        assert k in order;
      }
      ScanUnlessEmpty(c, order);
    }
  }

  predicate Rivalled(c: Entries, order: seq<string>)
    requires forall k <- order :: k in c
  {
    "" in order ==> exists i | 0 <= i < |order| :: order[i] != "" && c[order[i]].lastAccess <= c[""].lastAccess
  }

  /** On its way the scan forgets only an empty key that is older than all before it. */
  ghost predicate ScanOk(c: Entries, order: seq<string>)
    requires forall k <- order :: k in c
  {
    var lru := Scan(c, order);
    && lru in order
    && (lru == "" && |order| > 1 ==> !Rivalled(c, order))
    && (Rivalled(c, order) ==> forall k <- order :: c[lru].lastAccess <= c[k].lastAccess)
    && (!Rivalled(c, order) && lru != "" ==> c[""].lastAccess < c[lru].lastAccess)
  }

  lemma {:induction false} ScanUnlessEmpty(c: Entries, order: seq<string>)
    requires order != [] && (forall k <- order :: k in c) && forall i, j | 0 <= i < j < |order| :: order[i] != order[j]
    ensures ScanOk(c, order)
    decreases |order|
  {
    hide Scan, ScanOk, Rivalled;
    var n := |order| - 1;
    if n == 0 {
      ScanOkOne(c, order[0]);
      assert order == [order[0]];
    } else {
      ScanUnlessEmpty(c, order[..n]);
      ScanOkStep(c, order[..n], order[n]);
      assert order[..n] + [order[n]] == order;
    }
  }

  lemma ScanOkOne(c: Entries, k: string)
    requires k in c
    ensures ScanOk(c, [k])
  {
    assert [k][..0] == [];
  }

  lemma ScanOkStep(c: Entries, pre: seq<string>, k: string)
    requires pre != [] && (forall x <- pre :: x in c) && k in c && k !in pre && ScanOk(c, pre)
    ensures ScanOk(c, pre + [k])
  {
    var order := pre + [k];
    assert order[..|pre|] == pre;
    RivalledStep(c, pre, k);
    hide Rivalled;
  }

  lemma RivalledStep(c: Entries, pre: seq<string>, k: string)
    requires pre != [] && (forall x <- pre :: x in c) && k in c && k !in pre
    ensures "" !in pre ==> Rivalled(c, pre)
    ensures "" !in pre && k != "" ==> Rivalled(c, pre + [k])
    ensures "" in pre ==> (Rivalled(c, pre + [k]) <==> Rivalled(c, pre) || c[k].lastAccess <= c[""].lastAccess)
    ensures k == "" ==>
              (Rivalled(c, pre + [k]) <==> exists i | 0 <= i < |pre| :: c[pre[i]].lastAccess <= c[""].lastAccess)
  {
    var order := pre + [k];
    assert order[|pre|] == k && forall i | 0 <= i < |pre| :: order[i] == pre[i];
  }

  // ---------------------------------------------------------------- runs

  datatype Op =
    | GetOp(key: string, now: int, answer: string)
    | SetOp(key: string, now: int, content: string, ttl: int)

  ghost predicate Follows(c: Entries, op: Op, c': Entries, maxAge: int, maxSize: nat) {
    match op
    case GetOp(key, now, answer) => c' == AfterGet(c, key, now, maxAge) && answer == Got(c, key, now, maxAge)
    case SetOp(key, now, content, ttl) => AfterSet(c, c', key, Entry(content, now + ttl, now), maxSize)
  }

  /** The contents of a fresh cache before, between and after the operations; the clock strictly increases. */
  ghost predicate IsRun(ops: seq<Op>, cs: seq<Entries>, maxAge: int, maxSize: nat) {
    && |cs| == |ops| + 1 && cs[0] == map[] && maxSize > 0
    && (forall i, j | 0 <= i < j < |ops| :: ops[i].now < ops[j].now)
    && (forall i | 0 <= i < |ops| :: StepOk(ops, cs, maxAge, maxSize, i))
  }

  ghost predicate StepOk(ops: seq<Op>, cs: seq<Entries>, maxAge: int, maxSize: nat, i: nat)
    requires i < |ops| && |cs| == |ops| + 1
  {
    Follows(cs[i], ops[i], cs[i + 1], maxAge, maxSize)
  }

  /** The plain map: every key's latest content. */
  function Latest(ops: seq<Op>): map<string, string> {
    if ops == [] then map[] else
    var m, op := Latest(ops[..|ops| - 1]), ops[|ops| - 1];
    if op.SetOp? then m[op.key := op.content] else m
  }

  /** The cache is part of the plain map, within its size, and older than now. */
  ghost predicate StateOk(ops: seq<Op>, c: Entries, maxSize: nat) {
    && |c| <= maxSize
    && (forall k <- c :: k in Latest(ops) && c[k].prompt == Latest(ops)[k])
    && (forall k <- c :: ops != [] && c[k].lastAccess <= ops[|ops| - 1].now)
  }

  lemma SetSize(c: Entries, c': Entries, key: string, e: Entry, maxSize: nat)
    requires AfterSet(c, c', key, e, maxSize) && |c| <= maxSize && maxSize > 0
    ensures |c'| <= maxSize
    ensures forall k <- c' :: if k == key then c'[k] == e else k in c && c'[k] == c[k]
    ensures key in c'
  {
    if key !in c && |c| >= maxSize {
      ScanIsMember(c);
      var order :| OrderOf(c, order) && c' == (c - {Scan(c, order)})[key := e];
      assert c'.Keys == c.Keys - {Scan(c, order)} + {key};
    } else {
      assert c'.Keys == c.Keys + {key};
    }
  }

  lemma StateOkStep(before: seq<Op>, op: Op, c: Entries, c': Entries, maxAge: int, maxSize: nat)
    requires StateOk(before, c, maxSize) && Follows(c, op, c', maxAge, maxSize) && maxSize > 0
    requires before != [] ==> before[|before| - 1].now < op.now
    ensures StateOk(before + [op], c', maxSize)
  {
    assert (before + [op])[..|before|] == before;
    if op.SetOp? {
      SetSize(c, c', op.key, Entry(op.content, op.now + op.ttl, op.now), maxSize);
    } else {
      ExpireShrinks(c, op.now, maxAge);
      var live := Expire(c, op.now, maxAge);
      assert op.key in live ==> live[op.key := live[op.key].(lastAccess := op.now)].Keys == live.Keys;
    }
  }

  lemma {:induction false} RunStateOk(ops: seq<Op>, cs: seq<Entries>, maxAge: int, maxSize: nat, j: nat)
    requires IsRun(ops, cs, maxAge, maxSize) && j < |cs|
    ensures StateOk(ops[..j], cs[j], maxSize)
    decreases j
  {
    if j > 0 {
      hide StateOk, Follows, Latest;
      RunStateOk(ops, cs, maxAge, maxSize, j - 1);
      assert StepOk(ops, cs, maxAge, maxSize, j - 1);
      assert ops[..j] == ops[..j - 1] + [ops[j - 1]];
      StateOkStep(ops[..j - 1], ops[j - 1], cs[j - 1], cs[j], maxAge, maxSize);
    }
  }

  lemma WithinSize(ops: seq<Op>, cs: seq<Entries>, maxAge: int, maxSize: nat, j: nat)
    requires IsRun(ops, cs, maxAge, maxSize) && j < |cs|
    ensures |cs[j]| <= maxSize
  {
    RunStateOk(ops, cs, maxAge, maxSize, j);
  }

  /**
   At every point of every run: within the size bound, and a `get` answers "" or the latest
   content set for the key.
   */
  lemma AgreesWithPlainMap(ops: seq<Op>, cs: seq<Entries>, maxAge: int, maxSize: nat, j: nat)
    requires IsRun(ops, cs, maxAge, maxSize) && j < |ops|
    ensures |cs[j]| <= maxSize
    ensures ops[j].GetOp? && ops[j].answer != "" ==>
              ops[j].key in Latest(ops[..j]) && ops[j].answer == Latest(ops[..j])[ops[j].key]
  {
    RunStateOk(ops, cs, maxAge, maxSize, j);
    assert StepOk(ops, cs, maxAge, maxSize, j);
  }

  /** Operation m touched its key: a `set`, or a `get` that hit. */
  predicate Touches(ops: seq<Op>, cs: seq<Entries>, m: nat)
    requires m < |ops| && |cs| == |ops| + 1
  {
    ops[m].SetOp? || ops[m].key in cs[m + 1]
  }

  /** Keys touched by operations i..j-1. */
  function TouchedKeys(ops: seq<Op>, cs: seq<Entries>, i: nat, j: nat): set<string>
    requires i <= j <= |ops| && |cs| == |ops| + 1
  {
    if i == j then {} else
    TouchedKeys(ops, cs, i, j - 1) + if Touches(ops, cs, j - 1) then {ops[j - 1].key} else {}
  }

  /**
   What keeps `key`, touched by operation i, alive: its entry is intact and everything else is
   older or touched since.
   */
  ghost predicate Surviving(ops: seq<Op>, cs: seq<Entries>, i: nat, j: nat, key: string)
    requires i < j <= |ops| && |cs| == |ops| + 1
  {
    && key in cs[i + 1] && key in cs[j] && cs[j][key] == cs[i + 1][key]
    && cs[j][key].lastAccess == ops[i].now
    && forall k <- cs[j] :: k == key || k in TouchedKeys(ops, cs, i + 1, j) || cs[j][k].lastAccess < ops[i].now
  }

  /**
   No `get` after operation i, up to j, came after the expiry of the entry that operation left,
   or too long after its last access.
   */
  ghost predicate Unexpired(ops: seq<Op>, cs: seq<Entries>, maxAge: int, i: nat, j: nat, key: string)
    requires i < j <= |ops| && |cs| == |ops| + 1
  {
    key in cs[i + 1] ==>
      forall m | i < m < j && ops[m].GetOp? ::
        ops[m].now <= cs[i + 1][key].expires && ops[m].now <= cs[i + 1][key].lastAccess + maxAge
  }

  predicate EmptyKeyNeverSet(ops: seq<Op>) { forall m | 0 <= m < |ops| && ops[m].SetOp? :: ops[m].key != "" }

  /** None of the operations i..j-1 is on the key. */
  predicate NotUsed(ops: seq<Op>, i: nat, j: nat, key: string)
    requires j <= |ops|
  {
    forall m | i <= m < j :: ops[m].key != key
  }

  /**
   LRU survival: a key touched by operation i and unexpired since is still cached as long as
   fewer than maxSize other keys were touched after it. Needs that nobody ever set the empty key.
   */
  lemma {:induction false} LruSurvival(ops: seq<Op>, cs: seq<Entries>, maxAge: int, maxSize: nat, i: nat, j: nat,
      key: string)
    requires IsRun(ops, cs, maxAge, maxSize) && i < j <= |ops|
    requires EmptyKeyNeverSet(ops)
    requires ops[i].key == key && Touches(ops, cs, i)
    requires NotUsed(ops, i + 1, j, key)
    requires Unexpired(ops, cs, maxAge, i, j, key)
    requires |TouchedKeys(ops, cs, i + 1, j)| < maxSize
    ensures Surviving(ops, cs, i, j, key)
    decreases j
  {
    if j == i + 1 {
      FreshlyTouched(ops, cs, maxAge, maxSize, i, key);
    } else {
      SubsetSize(TouchedKeys(ops, cs, i + 1, j - 1), TouchedKeys(ops, cs, i + 1, j));
      assert Unexpired(ops, cs, maxAge, i, j - 1, key);
      LruSurvival(ops, cs, maxAge, maxSize, i, j - 1, key);
      WithinSize(ops, cs, maxAge, maxSize, j - 1);
      NoEmptyKey(ops, cs, maxAge, maxSize, j - 1);
      assert StepOk(ops, cs, maxAge, maxSize, j - 1);
      StepSpares(ops, cs, maxAge, maxSize, i, j, key);
    }
  }

  lemma StepSpares(ops: seq<Op>, cs: seq<Entries>, maxAge: int, maxSize: nat, i: nat, j: nat, key: string)
    requires i + 1 < j <= |ops| && |cs| == |ops| + 1 && ops[j - 1].key != key && maxSize > 0
    requires Follows(cs[j - 1], ops[j - 1], cs[j], maxAge, maxSize) && |cs[j - 1]| <= maxSize && "" !in cs[j - 1]
    requires Surviving(ops, cs, i, j - 1, key) && Unexpired(ops, cs, maxAge, i, j, key)
    requires |TouchedKeys(ops, cs, i + 1, j)| < maxSize
    ensures Surviving(ops, cs, i, j, key)
  {
    if ops[j - 1].SetOp? {
      SetSpares(ops, cs, maxAge, maxSize, i, j, key);
    } else {
      GetSpares(ops, cs, maxAge, maxSize, i, j, key);
    }
  }

  lemma GetSpares(ops: seq<Op>, cs: seq<Entries>, maxAge: int, maxSize: nat, i: nat, j: nat, key: string)
    requires i + 1 < j <= |ops| && |cs| == |ops| + 1 && ops[j - 1].GetOp? && ops[j - 1].key != key
    requires Follows(cs[j - 1], ops[j - 1], cs[j], maxAge, maxSize)
    requires Surviving(ops, cs, i, j - 1, key) && Unexpired(ops, cs, maxAge, i, j, key)
    ensures Surviving(ops, cs, i, j, key)
  {
    assert !Stale(cs[i + 1][key], ops[j - 1].now, maxAge);
  }

  lemma FreshlyTouched(ops: seq<Op>, cs: seq<Entries>, maxAge: int, maxSize: nat, i: nat, key: string)
    requires IsRun(ops, cs, maxAge, maxSize) && i < |ops| && ops[i].key == key && Touches(ops, cs, i)
    ensures Surviving(ops, cs, i, i + 1, key)
  {
    var op := ops[i];
    RunStateOk(ops, cs, maxAge, maxSize, i);
    assert StepOk(ops, cs, maxAge, maxSize, i);
    if i > 0 {
      assert ops[..i][|ops[..i]| - 1] == ops[i - 1];
      assert ops[i - 1].now < ops[i].now;
    }
    if op.SetOp? {
      SetSize(cs[i], cs[i + 1], op.key, Entry(op.content, op.now + op.ttl, op.now), maxSize);
    }
  }

  lemma {:induction false} NoEmptyKey(ops: seq<Op>, cs: seq<Entries>, maxAge: int, maxSize: nat, j: nat)
    requires IsRun(ops, cs, maxAge, maxSize) && j <= |ops|
    requires EmptyKeyNeverSet(ops)
    ensures "" !in cs[j]
    decreases j
  {
    if j > 0 {
      NoEmptyKey(ops, cs, maxAge, maxSize, j - 1);
      assert StepOk(ops, cs, maxAge, maxSize, j - 1);
    }
  }

  /** A `set` does not evict a key that fewer than maxSize others were touched after. */
  lemma SetSpares(ops: seq<Op>, cs: seq<Entries>, maxAge: int, maxSize: nat, i: nat, j: nat, key: string)
    requires i + 1 < j <= |ops| && |cs| == |ops| + 1 && ops[j - 1].SetOp? && ops[j - 1].key != key && maxSize > 0
    requires Follows(cs[j - 1], ops[j - 1], cs[j], maxAge, maxSize)
    requires |cs[j - 1]| <= maxSize && "" !in cs[j - 1] && Surviving(ops, cs, i, j - 1, key)
    requires |TouchedKeys(ops, cs, i + 1, j)| < maxSize
    ensures Surviving(ops, cs, i, j, key)
  {
    var c, op := cs[j - 1], ops[j - 1];
    var e := Entry(op.content, op.now + op.ttl, op.now);
    SetSize(c, cs[j], op.key, e, maxSize);
    if op.key !in c && |c| >= maxSize {
      var order :| OrderOf(c, order) && cs[j] == (c - {Scan(c, order)})[op.key := e];
      ScanIsOldest(c, order);
      if Scan(c, order) == key {
        TooManyTouched(ops, cs, i, j, key, maxSize);
      }
    }
  }

  /** If the key were the oldest entry of a full cache, maxSize others would have been touched after it. */
  lemma TooManyTouched(ops: seq<Op>, cs: seq<Entries>, i: nat, j: nat, key: string, maxSize: nat)
    requires i + 1 < j <= |ops| && |cs| == |ops| + 1 && ops[j - 1].SetOp? && ops[j - 1].key !in cs[j - 1]
    requires Surviving(ops, cs, i, j - 1, key) && Oldest(cs[j - 1], key) && |cs[j - 1]| >= maxSize
    ensures |TouchedKeys(ops, cs, i + 1, j)| >= maxSize
  {
    var c := cs[j - 1];
    var others := c.Keys - {key} + {ops[j - 1].key};
    assert forall k <- c :: k != key ==> k in TouchedKeys(ops, cs, i + 1, j - 1);
    SubsetSize(others, TouchedKeys(ops, cs, i + 1, j));
  }

  // ---------------------------------------------------------------- when a get answers

  /** Operation i is the latest `set` of the key before j, and t the latest operation that touched it. */
  ghost predicate LatestAt(ops: seq<Op>, cs: seq<Entries>, i: nat, t: nat, j: nat, key: string)
    requires |cs| == |ops| + 1
  {
    && i <= t < j <= |ops| && ops[i].SetOp? && ops[i].key == key && ops[t].key == key && Touches(ops, cs, t)
    && (forall m | i < m < j && ops[m].key == key :: ops[m].GetOp?)
    && (forall m | t < m < j && ops[m].key == key :: !Touches(ops, cs, m))
  }

  /** Where a cached entry comes from. */
  ghost predicate Sourced(ops: seq<Op>, cs: seq<Entries>, i: nat, t: nat, j: nat, key: string)
    requires |cs| == |ops| + 1
  {
    && LatestAt(ops, cs, i, t, j, key) && key in cs[j]
    && cs[j][key] == Entry(ops[i].content, ops[i].now + ops[i].ttl, ops[t].now)
  }

  lemma {:induction false} EntrySource(ops: seq<Op>, cs: seq<Entries>, maxAge: int, maxSize: nat, j: nat, key: string)
    returns (i: nat, t: nat)
    requires IsRun(ops, cs, maxAge, maxSize) && j < |cs| && key in cs[j]
    ensures Sourced(ops, cs, i, t, j, key)
    decreases j
  {
    assert j > 0;
    assert StepOk(ops, cs, maxAge, maxSize, j - 1);
    var op := ops[j - 1];
    if op.SetOp? {
      RunStateOk(ops, cs, maxAge, maxSize, j - 1);
      SetSize(cs[j - 1], cs[j], op.key, Entry(op.content, op.now + op.ttl, op.now), maxSize);
    }
    if op.SetOp? && op.key == key {
      i, t := j - 1, j - 1;
    } else {
      i, t := EntrySource(ops, cs, maxAge, maxSize, j - 1, key);
      if op.key == key {
        t := j - 1;
      }
    }
  }

  lemma SameSource(ops: seq<Op>, cs: seq<Entries>, i: nat, t: nat, i': nat, t': nat, j: nat, key: string)
    requires |cs| == |ops| + 1 && LatestAt(ops, cs, i, t, j, key) && LatestAt(ops, cs, i', t', j, key)
    ensures i == i' && t == t'
  {
  }

  /**
   No answer is stale: it is the content of the latest `set`, given within that `set`'s time
   to live and at most maxAge after the key was last touched.
   */
  lemma NoStaleAnswer(ops: seq<Op>, cs: seq<Entries>, maxAge: int, maxSize: nat, j: nat) returns (i: nat, t: nat)
    requires IsRun(ops, cs, maxAge, maxSize) && j < |ops| && ops[j].GetOp? && ops[j].answer != ""
    ensures LatestAt(ops, cs, i, t, j, ops[j].key) && ops[j].answer == ops[i].content
    ensures ops[j].now <= ops[i].now + ops[i].ttl && ops[j].now - ops[t].now <= maxAge
  {
    assert StepOk(ops, cs, maxAge, maxSize, j);
    i, t := EntrySource(ops, cs, maxAge, maxSize, j, ops[j].key);
  }

  /** Within both times, and with few keys touched meanwhile, the entry stays where it is. */
  lemma {:induction false} StaysCached(ops: seq<Op>, cs: seq<Entries>, maxAge: int, maxSize: nat,
                                       i: nat, t: nat, n: nat, j: nat, key: string)
    requires IsRun(ops, cs, maxAge, maxSize) && LatestAt(ops, cs, i, t, j, key) && t < n <= j < |ops|
    requires EmptyKeyNeverSet(ops)
    requires |TouchedKeys(ops, cs, t + 1, j)| < maxSize
    requires ops[j].now <= ops[i].now + ops[i].ttl && ops[j].now - ops[t].now <= maxAge
    ensures Surviving(ops, cs, t, n, key) && NotUsed(ops, t + 1, n, key)
    decreases n
  {
    assert |cs| == |ops| + 1 && ops[i].SetOp? && i <= t && ops[t].key == key && Touches(ops, cs, t);
    hide IsRun, Follows, Touches, TouchedKeys, Surviving, LatestAt, Unexpired, EmptyKeyNeverSet;
    TouchedEntry(ops, cs, maxAge, maxSize, i, t, j, key);
    if n > t + 1 {
      StaysCached(ops, cs, maxAge, maxSize, i, t, n - 1, j, key);
      NoHitBetween(ops, cs, maxAge, maxSize, i, t, n - 1, j, key);
      TimesPass(ops, cs, maxAge, maxSize, i, t, n, j, key);
      TouchedGrow(ops, cs, t + 1, n, j);
      SubsetSize(TouchedKeys(ops, cs, t + 1, n), TouchedKeys(ops, cs, t + 1, j));
      LruSurvival(ops, cs, maxAge, maxSize, t, n, key);
    }
  }

  /** What the latest touch left. */
  lemma TouchedEntry(ops: seq<Op>, cs: seq<Entries>, maxAge: int, maxSize: nat, i: nat, t: nat, j: nat, key: string)
    requires IsRun(ops, cs, maxAge, maxSize) && LatestAt(ops, cs, i, t, j, key)
    ensures Surviving(ops, cs, t, t + 1, key) && key in cs[t + 1]
    ensures cs[t + 1][key] == Entry(ops[i].content, ops[i].now + ops[i].ttl, ops[t].now)
  {
    FreshlyTouched(ops, cs, maxAge, maxSize, t, key);
    var i', t' := EntrySource(ops, cs, maxAge, maxSize, t + 1, key);
    assert i' == i && t' == t;
  }

  lemma TimesPass(ops: seq<Op>, cs: seq<Entries>, maxAge: int, maxSize: nat, i: nat, t: nat, n: nat, j: nat,
      key: string)
    requires IsRun(ops, cs, maxAge, maxSize) && i <= t < n <= j < |ops| && key in cs[t + 1] && ops[i].SetOp?
    requires cs[t + 1][key] == Entry(ops[i].content, ops[i].now + ops[i].ttl, ops[t].now)
    requires ops[j].now <= ops[i].now + ops[i].ttl && ops[j].now - ops[t].now <= maxAge
    ensures Unexpired(ops, cs, maxAge, t, n, key)
  {
    assert forall m | t < m < n :: ops[m].now < ops[j].now;
  }

  /** A `get` of the live entry would have hit and touched it. */
  lemma NoHitBetween(ops: seq<Op>, cs: seq<Entries>, maxAge: int, maxSize: nat, i: nat, t: nat, m: nat, j: nat,
      key: string)
    requires IsRun(ops, cs, maxAge, maxSize) && LatestAt(ops, cs, i, t, j, key) && t < m < j < |ops|
    requires Surviving(ops, cs, t, m, key)
    requires cs[t + 1][key] == Entry(ops[i].content, ops[i].now + ops[i].ttl, ops[t].now)
    requires ops[j].now <= ops[i].now + ops[i].ttl && ops[j].now - ops[t].now <= maxAge
    ensures ops[m].key != key
  {
    assert StepOk(ops, cs, maxAge, maxSize, m);
    assert ops[m].now < ops[j].now;
    assert !Stale(cs[m][key], ops[m].now, maxAge);
    assert ops[m].key == key && ops[m].GetOp? ==> Touches(ops, cs, m);
  }

  lemma {:induction false} TouchedGrow(ops: seq<Op>, cs: seq<Entries>, i: nat, n: nat, j: nat)
    requires i <= n <= j <= |ops| && |cs| == |ops| + 1
    ensures TouchedKeys(ops, cs, i, n) <= TouchedKeys(ops, cs, i, j)
    decreases j
  {
    if n < j {
      TouchedGrow(ops, cs, i, n, j - 1);
    }
  }

  /**
   Exactly when a `get` answers, by the times of the operations alone: with fewer than maxSize
   keys touched since the key's last touch, it gives the content of the latest `set` if that
   one's time to live is not over and the last touch is at most maxAge old, and "" otherwise.
   */
  lemma AnswerIff(ops: seq<Op>, cs: seq<Entries>, maxAge: int, maxSize: nat, i: nat, t: nat, j: nat)
    requires IsRun(ops, cs, maxAge, maxSize) && j < |ops| && ops[j].GetOp? && LatestAt(ops, cs, i, t, j, ops[j].key)
    requires EmptyKeyNeverSet(ops)
    requires |TouchedKeys(ops, cs, t + 1, j)| < maxSize
    ensures ops[j].answer == if ops[j].now <= ops[i].now + ops[i].ttl && ops[j].now - ops[t].now <= maxAge
                             then ops[i].content else ""
  {
    var key := ops[j].key;
    assert StepOk(ops, cs, maxAge, maxSize, j);
    if ops[j].now <= ops[i].now + ops[i].ttl && ops[j].now - ops[t].now <= maxAge {
      StaysCached(ops, cs, maxAge, maxSize, i, t, j, j, key);
    }
    if key in cs[j] {
      var i', t' := EntrySource(ops, cs, maxAge, maxSize, j, key);
      SameSource(ops, cs, i, t, i', t', j, key);
    }
  }
}
