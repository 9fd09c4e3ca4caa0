/**
 User hooks (internal/agent/hooks_config.go): merging hook files, loading them with the old
 set kept on failure, noticing edits, and the bounded audit log.
 */
module UserHooks {
  import opened Options
  import opened Collections

  datatype Hook = Hook(id: string, enabled: bool, body: string)

  /** The file system at one moment; a missing file reads as no hooks. */
  datatype Disk = Disk(stat: string -> Option<int>, read: string -> Outcome, blank: string -> bool)

  datatype Outcome = Missing | Broken(error: string) | File(hooks: seq<Hook>)

  // ---------------------------------------------------------------- merging

  /** All hooks of the files, in order. */
  function Listed(files: seq<Outcome>): seq<Hook> {
    if files == [] then [] else
    var f := files[|files| - 1];
    Listed(files[..|files| - 1]) + if f.File? then f.hooks else []
  }

  /** The last definition of an id. */
  function LastDefinition(hooks: seq<Hook>, id: string): Option<Hook> {
    if hooks == [] then None
    else if hooks[|hooks| - 1].id == id then Some(hooks[|hooks| - 1])
    else LastDefinition(hooks[..|hooks| - 1], id)
  }

  /** Ids in the order of their first definition. */
  function FirstSeen(hooks: seq<Hook>): seq<string> {
    if hooks == [] then [] else
    var before, id := FirstSeen(hooks[..|hooks| - 1]), hooks[|hooks| - 1].id;
    if id in before then before else before + [id]
  }

  lemma OneMoreHook(hooks: seq<Hook>, h: Hook)
    ensures forall id :: LastDefinition(hooks + [h], id) == if h.id == id then Some(h) else LastDefinition(hooks, id)
    ensures FirstSeen(hooks + [h]) == if h.id in FirstSeen(hooks) then FirstSeen(hooks) else FirstSeen(hooks) + [h.id]
  {
    assert (hooks + [h])[..|hooks|] == hooks;
  }

  lemma NoHooks()
    ensures FirstSeen([]) == [] && forall id :: LastDefinition([], id) == None
  {
  }

  predicate Distinct(ids: seq<string>) { forall i, j | 0 <= i < j < |ids| :: ids[i] != ids[j] }

  lemma {:induction false} SeenIsDefined(hooks: seq<Hook>)
    ensures Distinct(FirstSeen(hooks))
    ensures forall id :: id in FirstSeen(hooks) <==> LastDefinition(hooks, id).Some?
    ensures forall id :: LastDefinition(hooks, id).Some? ==> LastDefinition(hooks, id).value.id == id
  {
    if hooks != [] {
      SeenIsDefined(hooks[..|hooks| - 1]);
    }
  }

  /** The last definition is the last hook with the id. */
  lemma {:induction false} LastDefinitionIs(hooks: seq<Hook>, id: string)
    ensures LastDefinition(hooks, id).None? <==> forall h <- hooks :: h.id != id
    ensures LastDefinition(hooks, id).Some? ==>
              exists i | 0 <= i < |hooks| ::
                && hooks[i] == LastDefinition(hooks, id).value && hooks[i].id == id
                && forall j | i < j < |hooks| :: hooks[j].id != id
  {
    if hooks != [] && hooks[|hooks| - 1].id != id {
      var front := hooks[..|hooks| - 1];
      LastDefinitionIs(front, id);
      assert hooks == front + [hooks[|hooks| - 1]];
      if LastDefinition(front, id).Some? {
        var i :| 0 <= i < |front| && front[i] == LastDefinition(front, id).value && front[i].id == id
                 && forall j | i < j < |front| :: front[j].id != id;
        assert hooks[i] == front[i] && forall j | i < j < |front| :: hooks[j] == front[j];
      }
    }
  }

  /** Hook i defines its id for the first time. */
  predicate FirstAt(hooks: seq<Hook>, i: nat) {
    i < |hooks| && forall j | 0 <= j < i :: hooks[j].id != hooks[i].id
  }

  /** Ids come in the order of their first definitions. */
  lemma {:induction false} FirstSeenInOrder(hooks: seq<Hook>) returns (at: seq<nat>)
    ensures |at| == |FirstSeen(hooks)|
    ensures forall k | 0 <= k < |at| :: FirstAt(hooks, at[k]) && hooks[at[k]].id == FirstSeen(hooks)[k]
    ensures forall k, l | 0 <= k < l < |at| :: at[k] < at[l]
    ensures forall i: nat | FirstAt(hooks, i) :: i in at
    decreases |hooks|
  {
    at := [];
    if hooks != [] {
      var n := |hooks| - 1;
      var front := hooks[..n];
      at := FirstSeenInOrder(front);
      assert forall i: nat | i < n :: FirstAt(hooks, i) <==> FirstAt(front, i);
      SeenIsDefined(front);
      LastDefinitionIs(front, hooks[n].id);
      assert FirstAt(hooks, n) <==> hooks[n].id !in FirstSeen(front) by {
        assert forall j | 0 <= j < n :: hooks[j] == front[j];
      }
      hide LastDefinition, Distinct, FirstAt;
      if hooks[n].id !in FirstSeen(front) {
        at := at + [n];
      }
    }
  }

  /** The later of two definitions of an id wins, at the place of the first. */
  ghost predicate Merged(hooks: seq<Hook>, out: seq<Hook>) {
    && |out| == |FirstSeen(hooks)|
    && forall i | 0 <= i < |out| :: LastDefinition(hooks, FirstSeen(hooks)[i]) == Some(out[i])
  }

  method MergeUserHooks(files: seq<Outcome>) returns (out: seq<Hook>)
    ensures Merged(Listed(files), out)
  {
    hide LastDefinition, FirstSeen, Indexes;
    assert Indexes(map[], []) by { NothingIndexed(); }
    NoHooks();
    var byID: map<string, Hook> := map[];
    var order: seq<string> := [];
    ghost var seen: seq<Hook> := [];
    for i := 0 to |files|
      invariant seen == Listed(files[..i])
      invariant order == FirstSeen(seen) && Indexes(byID, seen)
    {
      assert files[..i + 1][..i] == files[..i];
      if files[i].File? {
        ghost var base := seen;
        var hooks := files[i].hooks;
        for j := 0 to |hooks|
          invariant seen == base + hooks[..j]
          invariant order == FirstSeen(seen) && Indexes(byID, seen)
        {
          var h := hooks[j];
          IndexMore(byID, seen, h);
          if h.id !in byID {
            order := order + [h.id];
          }
          byID := byID[h.id := h];
          assert hooks[..j + 1] == hooks[..j] + [h];
          Associative(base, hooks[..j], [h]);
          seen := seen + [h];
        }
        assert hooks[..|hooks|] == hooks;
      } else {
        assert seen + [] == seen;
      }
    }
    assert files[..|files|] == files;
    out := InOrder(byID, order, seen);
  }

  method InOrder(byID: map<string, Hook>, order: seq<string>, ghost seen: seq<Hook>) returns (out: seq<Hook>)
    requires order == FirstSeen(seen) && Indexes(byID, seen)
    ensures Merged(seen, out)
  {
    hide LastDefinition, FirstSeen;
    SeenIsDefined(seen);
    out := [];
    for i := 0 to |order|
      invariant |out| == i && forall k | 0 <= k < i :: LastDefinition(seen, order[k]) == Some(out[k])
    {
      assert LastDefinition(seen, order[i]).Some?;
      out := out + [byID[order[i]]];
    }
  }

  lemma NothingIndexed()
    ensures Indexes(map[], [])
  {
  }

  lemma IndexMore(byID: map<string, Hook>, seen: seq<Hook>, h: Hook)
    requires Indexes(byID, seen)
    ensures Indexes(byID[h.id := h], seen + [h])
    ensures FirstSeen(seen + [h]) == if h.id in byID then FirstSeen(seen) else FirstSeen(seen) + [h.id]
  {
    hide LastDefinition, FirstSeen;
    OneMoreHook(seen, h);
    SeenIsDefined(seen);
  }

  /** The map of the merge loop: each id with its last definition so far. */
  ghost predicate Indexes(byID: map<string, Hook>, seen: seq<Hook>) {
    forall id :: LastDefinition(seen, id) == if id in byID then Some(byID[id]) else None
  }

  // ---------------------------------------------------------------- the order of ids

  /** Go's string order. */
  predicate Below(a: string, b: string) {
    b != "" && (a == "" || a[0] < b[0] || (a[0] == b[0] && Below(a[1..], b[1..])))
  }

  lemma {:induction false} BelowIsTotal(a: string, b: string)
    ensures a == b || Below(a, b) || Below(b, a)
    ensures !(Below(a, b) && Below(b, a)) && !Below(a, a)
    decreases |a|
  {
    if a != "" {
      if b != "" && a[0] == b[0] {
        BelowIsTotal(a[1..], b[1..]);
        if a[1..] == b[1..] {
          assert a == [a[0]] + a[1..] && b == [b[0]] + b[1..];
        }
      }
      BelowItself(a);
    }
  }

  lemma {:induction false} BelowItself(a: string)
    ensures !Below(a, a)
  {
    if a != "" {
      BelowItself(a[1..]);
    }
  }

  lemma {:induction false} BelowIsTransitive(a: string, b: string, c: string)
    requires Below(a, b) && Below(b, c)
    ensures Below(a, c)
    decreases |a|
  {
    if a != "" && a[0] == b[0] && b[0] == c[0] {
      BelowIsTransitive(a[1..], b[1..], c[1..]);
    }
  }

  /** The strings agree up to i; there the first ends, or has the smaller character. */
  predicate PartsAt(a: string, b: string, i: nat) {
    i <= |a| && i < |b| && a[..i] == b[..i] && (i == |a| || a[i] < b[i])
  }

  /** Go's order in plain words: a proper beginning comes first, or the smaller character where two strings part. */
  lemma {:induction false} BelowIff(a: string, b: string)
    ensures Below(a, b) <==> exists i :: PartsAt(a, b, i)
    decreases |a|
  {
    if b != "" {
      if a == "" || a[0] < b[0] {
        assert PartsAt(a, b, 0);
      } else if a[0] == b[0] {
        BelowIff(a[1..], b[1..]);
        if i: nat :| PartsAt(a[1..], b[1..], i) {
          assert a[..i + 1] == [a[0]] + a[1..][..i] && b[..i + 1] == [b[0]] + b[1..][..i];
          assert PartsAt(a, b, i + 1);
        }
        if i: nat :| PartsAt(a, b, i) {
          assert i > 0;
          assert a[1..][..i - 1] == a[..i][1..] && b[1..][..i - 1] == b[..i][1..];
          assert PartsAt(a[1..], b[1..], i - 1);
        }
      } else {
        forall i: nat
          ensures !PartsAt(a, b, i)
        {
          assert i > 0 && i <= |a| && i < |b| ==> a[..i][0] == a[0] && b[..i][0] == b[0];
        }
      }
    }
  }

  predicate ById(hooks: seq<Hook>) { forall i, j | 0 <= i < j < |hooks| :: Below(hooks[i].id, hooks[j].id) }

  /** The library sort, for hooks with distinct ids. */
  method SortById(hooks: seq<Hook>) returns (sorted: seq<Hook>)
    requires forall i, j | 0 <= i < j < |hooks| :: hooks[i].id != hooks[j].id
    ensures ById(sorted) && multiset(sorted) == multiset(hooks)
  {
    sorted := [];
    for n := 0 to |hooks|
      invariant ById(sorted) && multiset(sorted) == multiset(hooks[..n])
    {
      assert hooks[..n + 1] == hooks[..n] + [hooks[n]];
      FromPrefix(hooks, n, sorted);
      sorted := InsertById(sorted, hooks[n]);
    }
    assert hooks[..|hooks|] == hooks;
  }

  lemma FromPrefix(hooks: seq<Hook>, n: nat, sorted: seq<Hook>)
    requires n < |hooks| && forall i, j | 0 <= i < j < |hooks| :: hooks[i].id != hooks[j].id
    requires multiset(sorted) == multiset(hooks[..n])
    ensures forall k | 0 <= k < |sorted| :: sorted[k].id != hooks[n].id
  {
    forall k | 0 <= k < |sorted|
      ensures sorted[k].id != hooks[n].id
    {
      assert sorted[k] in multiset(hooks[..n]);
      var i :| 0 <= i < n && hooks[..n][i] == sorted[k];
    }
  }

  method InsertById(sorted: seq<Hook>, h: Hook) returns (longer: seq<Hook>)
    requires ById(sorted) && forall k | 0 <= k < |sorted| :: sorted[k].id != h.id
    ensures ById(longer) && multiset(longer) == multiset(sorted) + multiset{h}
  {
    hide Below, ById;
    var k := 0;
    while k < |sorted| && Below(sorted[k].id, h.id)
      invariant k <= |sorted| && forall i | 0 <= i < k :: Below(sorted[i].id, h.id)
    {
      k := k + 1;
    }
    longer := sorted[..k] + [h] + sorted[k..];
    InsertKeepsOrder(sorted, h, k);
    assert sorted == sorted[..k] + sorted[k..];
  }

  lemma InsertKeepsOrder(sorted: seq<Hook>, h: Hook, k: nat)
    requires ById(sorted) && k <= |sorted| && (forall i | 0 <= i < k :: Below(sorted[i].id, h.id))
    requires k < |sorted| ==> sorted[k].id != h.id && !Below(sorted[k].id, h.id)
    ensures ById(sorted[..k] + [h] + sorted[k..])
  {
    hide Below;
    forall j | k <= j < |sorted|
      ensures Below(h.id, sorted[j].id)
    {
      BelowIsTotal(sorted[k].id, h.id);
      if k < j {
        BelowIsTransitive(h.id, sorted[k].id, sorted[j].id);
      }
    }
  }

  // ---------------------------------------------------------------- the runner

  /** The files a list of paths stands for, blank paths left out. */
  function Files(disk: Disk, paths: seq<string>): seq<Outcome> {
    if paths == [] then [] else
    var p := paths[|paths| - 1];
    var before := Files(disk, paths[..|paths| - 1]);
    if disk.blank(p) then before else before + [disk.read(p)]
  }

  function Stamps(disk: Disk, paths: seq<string>): map<string, int> {
    map p | p in paths && !disk.blank(p) && disk.stat(p).Some? :: disk.stat(p).value
  }

  /** The modification time of a watched path, if there is a file. */
  function TimeAt(disk: Disk, paths: seq<string>, p: string): Option<int> {
    if p in paths && !disk.blank(p) then disk.stat(p) else None
  }

  function Remembered(mtimes: map<string, int>, p: string): Option<int> {
    if p in mtimes then Some(mtimes[p]) else None
  }

  /** Two sets of times differ exactly at some path. */
  lemma StampsDiffer(disk: Disk, paths: seq<string>, mtimes: map<string, int>)
    ensures Stamps(disk, paths) != mtimes <==> exists p :: TimeAt(disk, paths, p) != Remembered(mtimes, p)
  {
    var stamps := Stamps(disk, paths);
    assert forall p :: TimeAt(disk, paths, p) == Remembered(stamps, p);
    if forall p :: Remembered(stamps, p) == Remembered(mtimes, p) {
      assert forall p <- stamps :: Remembered(stamps, p).Some?;
      assert forall p <- mtimes :: Remembered(mtimes, p).Some?;
      assert stamps.Keys == mtimes.Keys;
      assert stamps == mtimes;
    }
  }

  /** The hooks of the readable, non-blank paths, one path after the other. */
  lemma {:induction false} ListedInOrder(disk: Disk, a: seq<string>, p: string)
    ensures Listed(Files(disk, [])) == []
    ensures Listed(Files(disk, a + [p])) == Listed(Files(disk, a))
            + if !disk.blank(p) && disk.read(p).File? then disk.read(p).hooks else []
  {
    assert (a + [p])[..|a|] == a;
    var before := Files(disk, a);
    assert (before + [disk.read(p)])[..|before|] == before;
    assert Listed(before) + [] == Listed(before);
  }

  /** Hooks in force: of each id its last definition, if enabled; in the order of ids. */
  ghost predicate InForce(hooks: seq<Hook>, defs: seq<Hook>) {
    && ById(defs)
    && forall h :: h in defs <==> h.enabled && LastDefinition(hooks, h.id) == Some(h)
  }

  predicate AllReadable(files: seq<Outcome>) { forall f <- files :: !f.Broken? }

  /** The error that stops a load: that of the first broken file. */
  predicate FirstError(files: seq<Outcome>, error: string) {
    exists i | 0 <= i < |files| :: files[i] == Broken(error) && AllReadable(files[..i])
  }

  class UserHookRunner {
    var defs: seq<Hook>
    var paths: seq<string>
    var mtimes: map<string, int>
    var lastErr: Option<string>

    constructor ()
      ensures defs == [] && paths == [] && mtimes == map[] && lastErr == None
    {
      defs, paths, mtimes, lastErr := [], [], map[], None;
    }

    /** A failed load changes nothing but the error and the remembered times. */
    method Load(disk: Disk, newPaths: seq<string>) returns (err: Option<string>)
      modifies this
      ensures mtimes == Stamps(disk, newPaths) && lastErr == err
      ensures err.None? <==> AllReadable(Files(disk, newPaths))
      ensures err.Some? ==> FirstError(Files(disk, newPaths), err.value) && defs == old(defs) && paths == old(paths)
      ensures err.None? ==> InForce(Listed(Files(disk, newPaths)), defs) && paths == newPaths
    {
      mtimes := Stamps(disk, newPaths);
      var files: seq<Outcome> := [];
      for i := 0 to |newPaths|
        invariant files == Files(disk, newPaths[..i]) && AllReadable(files)
        invariant mtimes == Stamps(disk, newPaths) && defs == old(defs) && paths == old(paths)
      {
        assert newPaths[..i + 1][..i] == newPaths[..i];
        if !disk.blank(newPaths[i]) {
          var f := disk.read(newPaths[i]);
          if f.Broken? {
            lastErr := Some(f.error);
            FilesGrow(disk, newPaths, i);
            return lastErr;
          }
          files := files + [f];
        }
      }
      assert newPaths[..|newPaths|] == newPaths;
      var merged := MergeUserHooks(files);
      var enabled := EnabledOf(Listed(files), merged);
      var sorted := SortById(enabled);
      SortedInForce(Listed(files), enabled, sorted);
      defs, paths, lastErr := sorted, newPaths, None;
      return None;
    }

    /** Reloads exactly when the times seen differ from those remembered, counting files that came or went. */
    method MaybeAutoReload(disk: Disk) returns (loaded: bool)
      modifies this
      ensures loaded <==> old(paths) != [] && Stamps(disk, old(paths)) != old(mtimes)
      ensures loaded <==>
                old(paths) != [] && exists p :: TimeAt(disk, old(paths), p) != Remembered(old(mtimes), p)
      ensures !loaded ==> unchanged(this)
      ensures loaded ==> mtimes == Stamps(disk, old(paths)) && paths == old(paths)
      ensures loaded ==>
                if AllReadable(Files(disk, paths)) then InForce(Listed(Files(disk, paths)), defs) else defs == old(defs)
    {
      StampsDiffer(disk, paths, mtimes);
      hide TimeAt, Remembered;
      if paths == [] {
        return false;
      }
      var changed := false;
      var current := Stamps(disk, paths);
      var todo := current.Keys;
      while todo != {} && !changed
        invariant unchanged(this) && todo <= current.Keys
        invariant changed ==> current != mtimes
        invariant !changed ==> forall p <- current.Keys - todo :: p in mtimes && mtimes[p] == current[p]
        decreases |todo|, !changed
      {
        var p :| p in todo;
        if p !in mtimes || mtimes[p] != current[p] {
          changed := true;
        } else {
          todo := todo - {p};
        }
      }
      if !changed && |current| != |mtimes| {
        changed := true;
      }
      if !changed {
        SameSize(current, mtimes);
        return false;
      }
      var err := Load(disk, paths);
      return true;
    }
  }

  /** A map inside another of the same size is that map. */
  lemma SameSize(a: map<string, int>, b: map<string, int>)
    requires |a| == |b| && forall p <- a :: p in b && b[p] == a[p]
    ensures a == b
  {
    assert a.Keys <= b.Keys;
    if p :| p in b.Keys && p !in a.Keys {
      SubsetSize(a.Keys, b.Keys - {p});
    }
  }

  lemma {:induction false} FilesGrow(disk: Disk, paths: seq<string>, i: nat)
    requires i < |paths| && !disk.blank(paths[i]) && disk.read(paths[i]).Broken? && AllReadable(Files(disk, paths[..i]))
    ensures FirstError(Files(disk, paths), disk.read(paths[i]).error) && !AllReadable(Files(disk, paths))
  {
    var n := |Files(disk, paths[..i])|;
    assert paths[..i + 1][..i] == paths[..i];
    FilesExtend(disk, paths, i + 1);
    var all := Files(disk, paths);
    assert all[n] == disk.read(paths[i]) && all[..n] == Files(disk, paths[..i]);
  }

  lemma {:induction false} FilesExtend(disk: Disk, paths: seq<string>, i: nat)
    requires i <= |paths|
    ensures Files(disk, paths[..i]) <= Files(disk, paths)
    decreases |paths|
  {
    if i == |paths| {
      assert paths[..i] == paths;
    } else {
      assert paths[..|paths| - 1][..i] == paths[..i];
      FilesExtend(disk, paths[..|paths| - 1], i);
    }
  }

  method EnabledOf(ghost hooks: seq<Hook>, merged: seq<Hook>) returns (enabled: seq<Hook>)
    requires Merged(hooks, merged)
    ensures forall h :: h in enabled <==> h.enabled && LastDefinition(hooks, h.id) == Some(h)
    ensures forall i, j | 0 <= i < j < |enabled| :: enabled[i].id != enabled[j].id
  {
    SeenIsDefined(hooks);
    enabled := [];
    for i := 0 to |merged|
      invariant forall h :: h in enabled <==> h.enabled && h in merged[..i]
      invariant forall a, b | 0 <= a < b < |enabled| :: enabled[a].id != enabled[b].id
    {
      assert merged[..i + 1] == merged[..i] + [merged[i]];
      assert forall k | 0 <= k < i :: merged[..i][k].id == FirstSeen(hooks)[k] != FirstSeen(hooks)[i] == merged[i].id;
      if merged[i].enabled {
        assert forall h <- enabled :: h in merged[..i];
        enabled := enabled + [merged[i]];
      }
    }
    assert merged[..|merged|] == merged;
    MergedHolds(hooks, merged);
  }

  lemma MergedHolds(hooks: seq<Hook>, merged: seq<Hook>)
    requires Merged(hooks, merged)
    ensures forall h :: h in merged <==> LastDefinition(hooks, h.id) == Some(h)
  {
    SeenIsDefined(hooks);
    forall h
      ensures h in merged <==> LastDefinition(hooks, h.id) == Some(h)
    {
      if LastDefinition(hooks, h.id) == Some(h) {
        var i :| 0 <= i < |FirstSeen(hooks)| && FirstSeen(hooks)[i] == h.id;
        assert merged[i] == h;
      }
    }
  }

  lemma SortedInForce(hooks: seq<Hook>, enabled: seq<Hook>, sorted: seq<Hook>)
    requires forall h :: h in enabled <==> h.enabled && LastDefinition(hooks, h.id) == Some(h)
    requires ById(sorted) && multiset(sorted) == multiset(enabled)
    ensures InForce(hooks, sorted)
  {
    forall h
      ensures h in sorted <==> h in enabled
    {
      assert h in sorted <==> h in multiset(sorted);
      assert h in enabled <==> h in multiset(enabled);
    }
  }

  /** What is in force is determined: two runners loaded from the same files agree. */
  lemma {:induction false} InForceIsUnique(hooks: seq<Hook>, a: seq<Hook>, b: seq<Hook>)
    requires InForce(hooks, a) && InForce(hooks, b)
    ensures a == b
  {
    SameSorted(a, b);
  }

  lemma {:induction false} SameSorted(a: seq<Hook>, b: seq<Hook>)
    requires ById(a) && ById(b) && forall h :: h in a <==> h in b
    ensures a == b
    decreases |a|
  {
    HasFirst(a);
    HasFirst(b);
    if a != [] {
      FirstIsLeast(a, b);
      forall h
        ensures h in a[1..] <==> h in b[1..]
      {
        NotFirst(a, h);
        NotFirst(b, h);
      }
      SameSorted(a[1..], b[1..]);
      assert a == [a[0]] + a[1..] && b == [b[0]] + b[1..];
    }
  }

  lemma HasFirst(s: seq<Hook>)
    ensures s == [] || s[0] in s
  {
  }

  lemma FirstIsLeast(a: seq<Hook>, b: seq<Hook>)
    requires ById(a) && ById(b) && a != [] && b != [] && a[0] in b && b[0] in a
    ensures a[0] == b[0]
  {
    BelowIsTotal(a[0].id, b[0].id);
  }

  lemma NotFirst(a: seq<Hook>, h: Hook)
    requires ById(a) && a != []
    ensures h in a[1..] <==> h in a && h != a[0]
  {
    if h in a[1..] {
      var k :| 0 <= k < |a[1..]| && a[1..][k] == h;
      assert a[k + 1] == h;
      BelowItself(h.id);
    }
    if h in a && h != a[0] {
      var k :| 0 <= k < |a| && a[k] == h;
      assert a[1..][k - 1] == h;
    }
  }

  // ---------------------------------------------------------------- the audit log

  class HookAuditLog<T> {
    const capacity: nat
    var entries: seq<T>
    ghost var log: seq<T>

    ghost predicate Valid() reads this {
      capacity > 0 && entries == if |log| <= capacity then log else log[|log| - capacity..]
    }

    constructor (cap: int)
      ensures Valid() && log == [] && capacity == if cap <= 0 then 500 else cap
    {
      capacity := if cap <= 0 then 500 else cap;
      entries, log := [], [];
    }

    method Append(e: T)
      requires Valid()
      modifies this
      ensures Valid() && log == old(log) + [e]
    {
      entries := entries + [e];
      log := log + [e];
      if |entries| > capacity {
        entries := entries[|entries| - capacity..];
      }
    }

    /** The newest entries of the whole log, newest first. */
    method Recent(n: int) returns (out: seq<T>)
      requires Valid()
      ensures |out| == if n <= 0 || n > |entries| then |entries| else n
      ensures forall i | 0 <= i < |out| :: out[i] == log[|log| - 1 - i]
    {
      var total := |entries|;
      var m := if n <= 0 || n > total then total else n;
      out := [];
      for i := 0 to m
        invariant |out| == i && forall k | 0 <= k < i :: out[k] == log[|log| - 1 - k]
      {
        out := out + [entries[total - 1 - i]];
      }
    }
  }
}
