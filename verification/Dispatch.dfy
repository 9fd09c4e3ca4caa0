/**
 Concurrent tool dispatch (internal/agent/loop.go, `dispatchTools`).

 A batch is split into independent calls, run as goroutines under a semaphore, and
 serial calls, run one by one afterwards. Each call is a small program of atomic actions
 on the part of the file system its tool sees and touches; a schedule interleaves those
 actions with the launching goroutine in every possible way. The main result is that each
 complete schedule leaves the files and the result slice of running the calls one by one
 in order, provided no call overtakes an earlier one it clashes with, and only then.
 */
module Dispatch {
  import opened Backend
  import opened Options

  // ---------------------------------------------------------------- classification

  /** What a tool does with files: rewrite one, read one, read none, read any, or anything at all. */
  datatype ToolKind = Writer | FileReader | NetReader | TreeReader | Unrestricted

  function KindOf(name: string): ToolKind {
    if name == "write_file" || name == "edit_file" then Writer
    else if name == "read_file" then FileReader
    else if name in {"web_search", "fetch_url"} then NetReader
    else if name in {"grep", "list_dir", "search_files", "git_status", "git_log", "git_blame", "git_diff",
        "git_branch"} then TreeReader
    else Unrestricted
  }

  predicate Writes(name: string) { KindOf(name) == Writer }

  predicate AlwaysIndependent(name: string) { KindOf(name) in {FileReader, NetReader, TreeReader} }

  predicate NamesRead(name: string) {
    || name in {"read_file", "grep", "list_dir", "search_files", "web_search", "fetch_url"}
    || name in {"git_status", "git_log", "git_blame", "git_diff", "git_branch"}
  }

  predicate NamesWrite(name: string) { name == "write_file" || name == "edit_file" }

  lemma KindsByName(name: string)
    ensures AlwaysIndependent(name) <==> NamesRead(name)
    ensures Writes(name) <==> NamesWrite(name)
  {
  }

  /** By name: a read, or a write to a named file that no other write of the batch names. */
  predicate RunsAhead(calls: seq<ToolCall>, i: nat)
    requires i < |calls|
  {
    || NamesRead(calls[i].name)
    || (&& NamesWrite(calls[i].name) && FilePath(calls[i].args) != ""
        && forall j | 0 <= j < |calls| && j != i ::
             !(NamesWrite(calls[j].name) && FilePath(calls[j].args) == FilePath(calls[i].args)))
  }

  predicate WritesTo(call: ToolCall, path: string) {
    Writes(call.name) && FilePath(call.args) == path
  }

  /** Call i may run concurrently: a read, or the only write of the batch to a named file. */
  predicate Independent(calls: seq<ToolCall>, i: nat)
    requires i < |calls|
  {
    var path := FilePath(calls[i].args);
    || AlwaysIndependent(calls[i].name)
    || (&& Writes(calls[i].name) && path != ""
        && forall j | 0 <= j < |calls| && j != i :: !WritesTo(calls[j], path))
  }

  /** The counting loop of `isIndependentTool`, stopping at the second write to the path. */
  method IsIndependentTool(calls: seq<ToolCall>, i: nat) returns (independent: bool)
    requires i < |calls|
    ensures independent == Independent(calls, i)
    ensures independent == RunsAhead(calls, i)
  {
    var name, path := calls[i].name, FilePath(calls[i].args);
    KindsByName(name);
    forall j | 0 <= j < |calls|
      ensures Writes(calls[j].name) <==> NamesWrite(calls[j].name)
    {
      KindsByName(calls[j].name);
    }
    hide KindOf, NamesRead, NamesWrite;
    if name == "bash" || name == "git_commit" || name == "git_stash" {
      return false;
    }
    if AlwaysIndependent(name) {
      return true;
    }
    if !Writes(name) || path == "" {
      return false;
    }
    var count := 0;
    ghost var first: nat := 0;
    for k := 0 to |calls|
      invariant count == 0 ==> forall j | 0 <= j < k :: !WritesTo(calls[j], path)
      invariant count != 0 ==> count == 1 && first < k && WritesTo(calls[first], path)
      invariant forall j | 0 <= j < k && j != first :: !WritesTo(calls[j], path)
    {
      if WritesTo(calls[k], path) {
        count := count + 1;
        if count > 1 {
          assert WritesTo(calls[if k == i then first else k], path);
          return false;
        }
        first := k;
      }
    }
    assert WritesTo(calls[i], path);
    return true;
  }

  // ---------------------------------------------------------------- parts of the file system

  type Files = map<string, string>

  datatype Region = Nowhere | Only(path: string) | Everywhere

  predicate Overlap(r: Region, q: Region) {
    r != Nowhere && q != Nowhere && (r == Everywhere || q == Everywhere || r == q)
  }

  predicate In(q: string, r: Region) { r == Everywhere || r == Only(q) }

  predicate Within(r: Region, q: Region) { r == Nowhere || q == Everywhere || r == q }

  function Part(files: Files, r: Region): Files {
    match r
    case Nowhere => map[]
    case Only(p) => if p in files then map[p := files[p]] else map[]
    case Everywhere => files
  }

  /** The files with one part replaced. */
  function Replace(files: Files, r: Region, part: Files): Files {
    match r
    case Nowhere => files
    case Only(p) => if p in part then files[p := part[p]] else files - {p}
    case Everywhere => part
  }

  lemma RegionLaws(files: Files, r: Region, x: Files, y: Files)
    ensures Part(Replace(files, r, x), r) == Part(x, r)
    ensures Replace(files, r, Part(files, r)) == files
    ensures Replace(Replace(files, r, x), r, y) == Replace(files, r, y)
    ensures Replace(files, r, Part(x, r)) == Replace(files, r, x)
  {
  }

  lemma ApartLaws(files: Files, r: Region, x: Files, q: Region, y: Files)
    requires !Overlap(r, q)
    ensures Part(Replace(files, r, x), q) == Part(files, q)
    ensures Replace(Replace(files, r, x), q, y) == Replace(Replace(files, q, y), r, x)
  {
  }

  lemma PartOfPart(files: Files, r: Region, q: Region)
    requires Within(r, q)
    ensures Part(Part(files, q), r) == Part(files, r)
  {
  }

  /** The file a call names, whatever its spelling. */
  function Target(resolve: string -> string, call: ToolCall): string { resolve(FilePath(call.args)) }

  /** What the tool may look at. */
  function Sees(resolve: string -> string, call: ToolCall): Region {
    match KindOf(call.name)
    case Writer => Only(Target(resolve, call))
    case FileReader => Only(Target(resolve, call))
    case NetReader => Nowhere
    case TreeReader => Everywhere
    case Unrestricted => Everywhere
  }

  /** What the tool may change. */
  function Touches(resolve: string -> string, call: ToolCall): Region {
    match KindOf(call.name)
    case Writer => Only(Target(resolve, call))
    case Unrestricted => Everywhere
    case _ => Nowhere
  }

  lemma TouchesWithinSees(resolve: string -> string, call: ToolCall)
    ensures Within(Touches(resolve, call), Sees(resolve, call))
  {
  }

  /** One of the two may change what the other looks at. */
  predicate Clash(resolve: string -> string, c: ToolCall, d: ToolCall) {
    Overlap(Touches(resolve, c), Sees(resolve, d)) || Overlap(Touches(resolve, d), Sees(resolve, c))
  }

  /** No call overtakes an earlier call it clashes with: of two clashing calls the later is serial. */
  ghost predicate InOrder(resolve: string -> string, calls: seq<ToolCall>) {
    forall i, j | 0 <= i < j < |calls| && Clash(resolve, calls[i], calls[j]) :: !Independent(calls, j)
  }

  /**
   A batch of file writes, each file named in one spelling, never lets a call overtake another:
   clashing writes are all serial.
   */
  lemma WriteBatchInOrder(resolve: string -> string, calls: seq<ToolCall>)
    requires forall i | 0 <= i < |calls| :: Writes(calls[i].name)
    requires forall i, j | 0 <= i < j < |calls| && Target(resolve, calls[i]) == Target(resolve, calls[j]) ::
               FilePath(calls[i].args) == FilePath(calls[j].args)
    ensures InOrder(resolve, calls)
    ensures forall i, j | 0 <= i < |calls| && 0 <= j < |calls| && i != j
                          && FilePath(calls[i].args) == FilePath(calls[j].args) :: !Independent(calls, i)
  {
    forall i, j | 0 <= i < |calls| && 0 <= j < |calls| && i != j && FilePath(calls[i].args) == FilePath(calls[j].args)
      ensures !Independent(calls, i)
    {
      assert WritesTo(calls[j], FilePath(calls[i].args));
      assert !AlwaysIndependent(calls[i].name);
    }
  }

  /** Any batch of reads is in order, whatever it reads. */
  lemma ReadBatchInOrder(resolve: string -> string, calls: seq<ToolCall>)
    requires forall i | 0 <= i < |calls| :: AlwaysIndependent(calls[i].name)
    ensures InOrder(resolve, calls) && forall i | 0 <= i < |calls| :: Independent(calls, i)
  {
  }

  // ---------------------------------------------------------------- the partition

  /** The two index lists built by the partition loop. */
  datatype Plan = Plan(independent: seq<nat>, serial: seq<nat>)

  ghost predicate Increasing(s: seq<nat>) {
    forall a, b | 0 <= a < b < |s| :: s[a] < s[b]
  }

  ghost predicate Partitions(calls: seq<ToolCall>, upTo: nat, p: Plan)
    requires upTo <= |calls|
  {
    && Increasing(p.independent) && Increasing(p.serial)
    && (forall i: nat :: i in p.independent <==> i < upTo && Independent(calls, i))
    && (forall i: nat :: i in p.serial <==> i < upTo && !Independent(calls, i))
  }

  method Partition(calls: seq<ToolCall>) returns (p: Plan)
    ensures Partitions(calls, |calls|, p)
  {
    hide Independent;
    p := Plan([], []);
    for i := 0 to |calls|
      invariant Partitions(calls, i, p)
    {
      assert forall a | 0 <= a < |p.independent| :: p.independent[a] in p.independent;
      assert forall a | 0 <= a < |p.serial| :: p.serial[a] in p.serial;
      var independent := IsIndependentTool(calls, i);
      if independent {
        p := p.(independent := p.independent + [i]);
      } else {
        p := p.(serial := p.serial + [i]);
      }
    }
  }

  // ---------------------------------------------------------------- one call

  function Cell(files: Files, path: string): Option<string> {
    if path in files then Some(files[path]) else None
  }

  /**
   What one `executeSingle` does to the part of the files its tool sees:
   - `resolve` names the file a path stands for;
   - `refuse` answers a call stopped before the write preview (unknown tool, gates, hooks);
   - `confirm` is the OnBeforeWrite callback, answering when it rejects or panics;
   - `after` and `output` are the tool itself, given what it sees.
   */
  datatype Harness = Harness(
    resolve: string -> string,
    refuse: ToolCall -> Option<string>,
    confirms: bool,
    confirm: (ToolCall, Option<string>) -> Option<string>,
    after: (ToolCall, Files) -> Files,
    output: (ToolCall, Files) -> string,
    maxParallelism: int)

  /** The semaphore's size: non-positive settings mean the default. */
  function Cap(h: Harness): (cap: nat)
    ensures cap > 0
  {
    if h.maxParallelism <= 0 then 16 else h.maxParallelism
  }

  /** What a call leaves in the part it may change, and its answer. */
  datatype Effect = Effect(part: Files, content: string)

  function Unchanged(h: Harness, call: ToolCall, view: Files, content: string): Effect {
    Effect(Part(view, Touches(h.resolve, call)), content)
  }

  function RunTool(h: Harness, call: ToolCall, view: Files): Effect {
    Effect(Part(h.after(call, view), Touches(h.resolve, call)), h.output(call, view))
  }

  /** The call run on its own, in one piece. */
  function Alone(h: Harness, call: ToolCall, view: Files): Effect {
    if h.refuse(call).Some? then Unchanged(h, call, view, h.refuse(call).value)
    else if Writes(call.name) && h.confirms then AfterPreview(h, call, Cell(view, Target(h.resolve, call)), view)
    else RunTool(h, call, view)
  }

  function AfterPreview(h: Harness, call: ToolCall, before: Option<string>, view: Files): Effect {
    if h.confirm(call, before).Some?
    then Unchanged(h, call, view, h.confirm(call, before).value)
    else RunTool(h, call, view)
  }

  function View(h: Harness, call: ToolCall, files: Files): Files { Part(files, Sees(h.resolve, call)) }

  function Apply(h: Harness, call: ToolCall, files: Files, e: Effect): Files {
    Replace(files, Touches(h.resolve, call), e.part)
  }

  /** Reference semantics: calls k.. run one after the other. */
  function OneByOne(h: Harness, calls: seq<ToolCall>, k: nat, files: Files): (Files, seq<string>)
    requires k <= |calls|
    decreases |calls| - k
  {
    if k == |calls| then (files, []) else
    var e := Alone(h, calls[k], View(h, calls[k], files));
    var (rest, contents) := OneByOne(h, calls, k + 1, Apply(h, calls[k], files, e));
    (rest, [e.content] + contents)
  }

  /** Where the goroutine (or the serial loop) stands inside one call. */
  datatype Phase =
    | Pending
    | Started
    | Previewed(before: Option<string>)
    | Confirming(before: Option<string>)     // holds writeMu
    | Approved
    | Loaded(seen: Files)                 // the tool has read what it sees
    | Returned(content: string)
    | Stored(content: string)             // result slot written
    | Gone(content: string)               // wg.Done, semaphore slot released

  /** What is left of a call in phase p comes to, if it now runs undisturbed. */
  function Remaining(h: Harness, call: ToolCall, p: Phase, view: Files): Effect {
    match p
    case Pending => Alone(h, call, view)
    case Started => Alone(h, call, view)
    case Previewed(before) => AfterPreview(h, call, before, view)
    case Confirming(before) => AfterPreview(h, call, before, view)
    case Approved => RunTool(h, call, view)
    case Loaded(seen) => RunTool(h, call, seen)
    case Returned(content) => Unchanged(h, call, view, content)
    case Stored(content) => Unchanged(h, call, view, content)
    case Gone(content) => Unchanged(h, call, view, content)
  }

  // ---------------------------------------------------------------- the concurrent system

  datatype System = System(
    files: Files,
    phases: seq<Phase>,
    results: seq<Option<string>>,
    launched: nat,           // independents handed to goroutines
    waited: bool,            // wg.Wait has returned
    serialNext: nat,         // serial calls entered by the main loop
    slots: set<nat>,         // semaphore holders
    lock: Option<nat>)       // writeMu holder

  datatype Step = Launch | Wait | RunSerial | Advance(i: nat)

  function Start(calls: seq<ToolCall>, files: Files): System {
    System(files, seq(|calls|, i => Pending), seq(|calls|, i => None), 0, false, 0, {}, None)
  }

  predicate Finished(p: Phase) { p.Stored? || p.Gone? }

  predicate Live(p: Phase) { !p.Pending? && !p.Gone? }

  /** Enough structure for steps to be defined. */
  predicate Shaped(calls: seq<ToolCall>, plan: Plan, s: System) {
    && |s.phases| == |s.results| == |calls|
    && s.launched <= |plan.independent| && s.serialNext <= |plan.serial|
    && (forall m | 0 <= m < |plan.independent| :: plan.independent[m] < |calls|)
    && (forall m | 0 <= m < |plan.serial| :: plan.serial[m] < |calls|)
  }

  predicate Enabled(h: Harness, calls: seq<ToolCall>, plan: Plan, s: System, t: Step)
    requires Shaped(calls, plan, s)
  {
    match t
    case Launch => s.launched < |plan.independent| && |s.slots| < Cap(h)
    case Wait => !s.waited && s.launched == |plan.independent| && forall i <- plan.independent :: s.phases[i].Gone?
    case RunSerial =>
      && s.waited && s.serialNext < |plan.serial|
      && (s.serialNext > 0 ==> s.phases[plan.serial[s.serialNext - 1]].Gone?)
    case Advance(i) => i < |calls| && Live(s.phases[i]) && (s.phases[i].Previewed? ==> s.lock.None?)
  }

  function Take(h: Harness, calls: seq<ToolCall>, plan: Plan, s: System, t: Step): System
    requires Shaped(calls, plan, s) && Enabled(h, calls, plan, s, t)
  {
    match t
    case Launch =>
      var i := plan.independent[s.launched];
      s.(phases := s.phases[i := Started], launched := s.launched + 1, slots := s.slots + {i})
    case Wait => s.(waited := true)
    case RunSerial => s.(phases := s.phases[plan.serial[s.serialNext] := Started], serialNext := s.serialNext + 1)
    case Advance(i) => Act(h, calls, s, i)
  }

  /** One atomic action inside call i. */
  function Act(h: Harness, calls: seq<ToolCall>, s: System, i: nat): System
    requires |s.phases| == |s.results| == |calls| && i < |calls| && Live(s.phases[i])
  {
    var call := calls[i];
    match s.phases[i]
    case Started =>
      if h.refuse(call).Some? then To(s, i, Returned(h.refuse(call).value))
      else if Writes(call.name) && h.confirms then To(s, i, Previewed(Cell(s.files, Target(h.resolve, call))))
      else To(s, i, Approved)
    case Previewed(before) => To(s, i, Confirming(before)).(lock := Some(i))
    case Confirming(before) =>
      var verdict := h.confirm(call, before);
      To(s, i, if verdict.Some? then Returned(verdict.value) else Approved).(lock := None)
    case Approved => To(s, i, Loaded(View(h, call, s.files)))
    case Loaded(seen) =>
      var e := RunTool(h, call, seen);
      To(s, i, Returned(e.content)).(files := Apply(h, call, s.files, e))
    case Returned(content) => To(s, i, Stored(content)).(results := s.results[i := Some(content)])
    case Stored(content) => To(s, i, Gone(content)).(slots := s.slots - {i})
  }

  function To(s: System, i: nat, p: Phase): System
    requires i < |s.phases|
  {
    s.(phases := s.phases[i := p])
  }

  // ---------------------------------------------------------------- invariant

  /** What the step lemmas use of a partition: two increasing, disjoint, exhaustive lists. */
  ghost predicate PlanOk(n: nat, plan: Plan) {
    && Increasing(plan.independent) && Increasing(plan.serial)
    && (forall m | 0 <= m < |plan.independent| :: plan.independent[m] < n && plan.independent[m] !in plan.serial)
    && (forall m | 0 <= m < |plan.serial| :: plan.serial[m] < n && plan.serial[m] !in plan.independent)
    && (forall i: nat | i < n :: i in plan.independent || i in plan.serial)
  }

  lemma PartitionOk(calls: seq<ToolCall>, plan: Plan)
    requires Partitions(calls, |calls|, plan)
    ensures PlanOk(|calls|, plan)
  {
    assert forall m | 0 <= m < |plan.independent| :: plan.independent[m] in plan.independent;
    assert forall m | 0 <= m < |plan.serial| :: plan.serial[m] in plan.serial;
  }

  /** Launch order: a call has been entered exactly when its list position was passed. */
  ghost predicate OrderInv(plan: Plan, s: System) {
    && PlanOk(|s.phases|, plan)
    && s.launched <= |plan.independent| && s.serialNext <= |plan.serial|
    && (forall m | 0 <= m < |plan.independent| :: s.phases[plan.independent[m]].Pending? <==> s.launched <= m)
    && (forall m | 0 <= m < |plan.serial| :: s.phases[plan.serial[m]].Pending? <==> s.serialNext <= m)
    && (forall m | 0 <= m < s.serialNext - 1 :: s.phases[plan.serial[m]].Gone?)
    && (s.serialNext > 0 ==> s.waited)
    && (s.waited ==> s.launched == |plan.independent| && forall i <- plan.independent :: s.phases[i].Gone?)
  }

  /** The semaphore is held exactly by the live goroutines. */
  ghost predicate SlotInv(h: Harness, plan: Plan, s: System) {
    && |s.slots| <= Cap(h)
    && forall i: nat :: i in s.slots <==> i < |s.phases| && i in plan.independent && Live(s.phases[i])
  }

  ghost predicate LockInv(s: System) {
    && (s.lock.Some? ==> s.lock.value < |s.phases|)
    && (forall i: nat | i < |s.phases| :: s.phases[i].Confirming? <==> s.lock == Some(i))
  }

  ghost predicate ResultInv(s: System) {
    && |s.results| == |s.phases|
    && forall i | 0 <= i < |s.phases| ::
         s.results[i] == if Finished(s.phases[i]) then Some(s.phases[i].content) else None
  }

  ghost predicate Inv(h: Harness, calls: seq<ToolCall>, plan: Plan, s: System) {
    |s.phases| == |calls| && OrderInv(plan, s) && SlotInv(h, plan, s) && LockInv(s) && ResultInv(s)
  }

  lemma StartInv(h: Harness, calls: seq<ToolCall>, plan: Plan, files: Files)
    requires PlanOk(|calls|, plan)
    ensures Inv(h, calls, plan, Start(calls, files))
  {
  }

  /** Everything an action does besides moving its own phase forward. */
  lemma ActFrame(h: Harness, calls: seq<ToolCall>, s: System, i: nat)
    requires |s.phases| == |s.results| == |calls| && i < |calls| && Live(s.phases[i])
    ensures var s' := Act(h, calls, s, i);
            && s'.phases == s.phases[i := s'.phases[i]] && !s'.phases[i].Pending?
            && s'.launched == s.launched && s'.waited == s.waited && s'.serialNext == s.serialNext
            && (s'.phases[i].Gone? <==> s.phases[i].Stored?)
            && s'.slots == (if s.phases[i].Stored? then s.slots - {i} else s.slots)
            && (s'.phases[i].Confirming? <==> s.phases[i].Previewed?)
            && s'.lock == (if s.phases[i].Previewed? then Some(i) else if s.phases[i].Confirming? then None else s.lock)
            && (Finished(s'.phases[i]) <==> s.phases[i].Returned? || s.phases[i].Stored?)
            && s'.results == (if s.phases[i].Returned? then s.results[i := Some(s.phases[i].content)] else s.results)
            && (Finished(s'.phases[i]) ==> s'.phases[i].content == s.phases[i].content)
            && Weight(s'.phases[i]) < Weight(s.phases[i])
  {
  }

  lemma AdvanceKeepsOrder(plan: Plan, s: System, s': System, i: nat, p: Phase)
    requires OrderInv(plan, s) && i < |s.phases| && Live(s.phases[i]) && !p.Pending?
    requires s'.phases == s.phases[i := p]
    requires s'.launched == s.launched && s'.waited == s.waited && s'.serialNext == s.serialNext
    ensures OrderInv(plan, s')
  {
  }

  lemma AdvanceKeepsRest(h: Harness, calls: seq<ToolCall>, plan: Plan, s: System, i: nat)
    requires Inv(h, calls, plan, s) && i < |calls| && Live(s.phases[i])
    requires s.phases[i].Previewed? ==> s.lock.None?
    ensures Inv(h, calls, plan, Act(h, calls, s, i))
  {
    var s' := Act(h, calls, s, i);
    ActFrame(h, calls, s, i);
    AdvanceKeepsOrder(plan, s, s', i, s'.phases[i]);
  }

  lemma LaunchKeepsInv(h: Harness, calls: seq<ToolCall>, plan: Plan, s: System)
    requires Inv(h, calls, plan, s) && s.launched < |plan.independent| && |s.slots| < Cap(h)
    ensures Inv(h, calls, plan, Take(h, calls, plan, s, Launch))
  {
    var s' := Take(h, calls, plan, s, Launch);
    var i := plan.independent[s.launched];
    assert s.phases[i].Pending? && i !in s.slots;
    EnterKeepsOrder(plan, s, s', i, plan.independent, s.launched);
    EnterKeepsSlots(h, plan, s, s', i);
    EnterKeepsRest(s, s', i);
    hide OrderInv, SlotInv, LockInv, ResultInv;
  }

  lemma EnterKeepsRest(s: System, s': System, i: nat)
    requires LockInv(s) && ResultInv(s) && i < |s.phases| && s.phases[i].Pending?
    requires s'.phases == s.phases[i := Started] && s'.lock == s.lock && s'.results == s.results
    ensures LockInv(s') && ResultInv(s')
  {
  }

  lemma EnterKeepsSlots(h: Harness, plan: Plan, s: System, s': System, i: nat)
    requires SlotInv(h, plan, s) && i < |s.phases| && i in plan.independent && i !in s.slots && |s.slots| < Cap(h)
    requires s'.phases == s.phases[i := Started] && s'.slots == s.slots + {i}
    ensures SlotInv(h, plan, s')
  {
  }

  /** Entering the next call of its list keeps the launch order. */
  lemma EnterKeepsOrder(plan: Plan, s: System, s': System, i: nat, list: seq<nat>, m: nat)
    requires OrderInv(plan, s) && m < |list| && list[m] == i < |s.phases| && s'.phases == s.phases[i := Started]
        && s'.waited == s.waited
    requires || (list == plan.independent && m == s.launched && s'.launched == m + 1 && s'.serialNext == s.serialNext)
             || (&& list == plan.serial && m == s.serialNext && s'.serialNext == m + 1 && s'.launched == s.launched
                 && s.waited
                 && (m > 0 ==> s.phases[list[m - 1]].Gone?))
    ensures OrderInv(plan, s')
  {
  }

  lemma RunSerialKeepsInv(h: Harness, calls: seq<ToolCall>, plan: Plan, s: System)
    requires Inv(h, calls, plan, s) && Enabled(h, calls, plan, s, RunSerial)
    ensures Inv(h, calls, plan, Take(h, calls, plan, s, RunSerial))
  {
    var s' := Take(h, calls, plan, s, RunSerial);
    var i := plan.serial[s.serialNext];
    assert s.phases[i].Pending? && i !in plan.independent;
    EnterKeepsOrder(plan, s, s', i, plan.serial, s.serialNext);
    hide OrderInv;
  }

  lemma StepKeepsInv(h: Harness, calls: seq<ToolCall>, plan: Plan, s: System, t: Step)
    requires Inv(h, calls, plan, s) && Enabled(h, calls, plan, s, t)
    ensures Inv(h, calls, plan, Take(h, calls, plan, s, t))
  {
    match t
    case Launch => LaunchKeepsInv(h, calls, plan, s);
    case Wait =>
    case RunSerial => RunSerialKeepsInv(h, calls, plan, s);
    case Advance(i) => AdvanceKeepsRest(h, calls, plan, s, i);
  }

  // ---------------------------------------------------------------- the outcome still to come

  /** Finish calls k.. in order, each from the phase it is in. */
  function Complete(h: Harness, calls: seq<ToolCall>, k: nat, files: Files, phases: seq<Phase>): (Files, seq<string>)
    requires k <= |calls| == |phases|
    decreases |calls| - k
  {
    if k == |calls| then (files, []) else
    var e := Remaining(h, calls[k], phases[k], View(h, calls[k], files));
    var (rest, contents) := Complete(h, calls, k + 1, Apply(h, calls[k], files, e), phases);
    (rest, [e.content] + contents)
  }

  lemma {:induction false} CompleteFromStart(h: Harness, calls: seq<ToolCall>, k: nat, files: Files, phases: seq<Phase>)
    requires k <= |calls| == |phases| && forall i | k <= i < |calls| :: phases[i].Pending?
    ensures Complete(h, calls, k, files, phases) == OneByOne(h, calls, k, files)
    decreases |calls| - k
  {
    hide Alone, Apply, View;
    if k < |calls| {
      CompleteFromStart(h, calls, k + 1, Apply(h, calls[k], files, Alone(h, calls[k], View(h, calls[k], files))),
          phases);
    }
  }

  /** A call that has answered changes nothing any more. */
  lemma OverChangesNothing(h: Harness, call: ToolCall, p: Phase, files: Files)
    requires p.Returned? || Finished(p)
    ensures Remaining(h, call, p, View(h, call, files)).content == p.content
    ensures Apply(h, call, files, Remaining(h, call, p, View(h, call, files))) == files
  {
    hide Sees, Touches, Part, Replace;
    TouchesWithinSees(h.resolve, call);
    PartOfPart(files, Touches(h.resolve, call), Sees(h.resolve, call));
    RegionLaws(files, Touches(h.resolve, call), files, files);
  }

  lemma {:induction false} CompleteAtEnd(h: Harness, calls: seq<ToolCall>, k: nat, files: Files, phases: seq<Phase>)
    requires k <= |calls| == |phases| && forall i | k <= i < |calls| :: phases[i].Gone?
    ensures var (rest, contents) := Complete(h, calls, k, files, phases);
            && rest == files && |contents| == |calls| - k
            && forall i | k <= i < |calls| :: contents[i - k] == phases[i].content
    decreases |calls| - k
  {
    hide Apply, View, Remaining;
    if k < |calls| {
      OverChangesNothing(h, calls[k], phases[k], files);
      CompleteAtEnd(h, calls, k + 1, files, phases);
    }
  }

  /** Calls before k do not matter to what calls k.. come to. */
  lemma {:induction false} CompleteTail(h: Harness, calls: seq<ToolCall>, k: nat, files: Files, a: seq<Phase>,
      b: seq<Phase>)
    requires k <= |calls| == |a| == |b| && forall i | k <= i < |calls| :: a[i] == b[i]
    ensures Complete(h, calls, k, files, a) == Complete(h, calls, k, files, b)
    decreases |calls| - k
  {
    hide Apply, View, Remaining;
    if k < |calls| {
      CompleteTail(h, calls, k + 1, Apply(h, calls[k], files, Remaining(h, calls[k], a[k], View(h, calls[k], files))),
          a, b);
    }
  }

  /** The files after one action of call i, which changed at most its own part. */
  function Moved(h: Harness, call: ToolCall, files: Files, part: Files): Files {
    Replace(files, Touches(h.resolve, call), part)
  }

  /** Calls that do not clash: neither notices whether the other has moved. */
  lemma ApartCalls(h: Harness, c: ToolCall, d: ToolCall, files: Files, part: Files, e: Effect)
    requires !Clash(h.resolve, c, d)
    ensures View(h, d, Moved(h, c, files, part)) == View(h, d, files)
    ensures Apply(h, d, Moved(h, c, files, part), e) == Moved(h, c, Apply(h, d, files, e), part)
    ensures View(h, c, Apply(h, d, files, e)) == View(h, c, files)
    ensures View(h, c, Moved(h, c, Apply(h, d, files, e), part)) == View(h, c, Moved(h, c, files, part))
  {
    hide Sees, Touches, Part, Replace;
    var tc, sc, td, sd := Touches(h.resolve, c), Sees(h.resolve, c), Touches(h.resolve, d), Sees(h.resolve, d);
    TouchesWithinSees(h.resolve, c);
    assert !Overlap(tc, sd) && !Overlap(td, sc) && !Overlap(tc, td);
    ApartLaws(files, tc, part, sd, part);
    ApartLaws(files, tc, part, td, e.part);
    ApartLaws(files, td, e.part, sc, part);
    ApartLaws(Moved(h, c, files, part), td, e.part, sc, part);
  }

  /** Moving one call forward changes nothing to come, if every earlier call it clashes with is over. */
  lemma {:induction false} MoveKeepsOutcome(h: Harness, calls: seq<ToolCall>, k: nat, i: nat,
                                            files: Files, phases: seq<Phase>, part: Files, p: Phase)
    requires k <= i < |calls| == |phases|
    requires Remaining(h, calls[i], p, View(h, calls[i], Moved(h, calls[i], files, part)))
          == Remaining(h, calls[i], phases[i], View(h, calls[i], files))
    requires forall j | k <= j < i && Clash(h.resolve, calls[j], calls[i]) :: phases[j].Gone?
    ensures Complete(h, calls, k, Moved(h, calls[i], files, part), phases[i := p])
        == Complete(h, calls, k, files, phases)
    decreases i - k
  {
    hide Remaining, View, Clash, Touches, Replace;
    var moved := Moved(h, calls[i], files, part);
    var e := Remaining(h, calls[k], phases[k], View(h, calls[k], files));
    var next := Apply(h, calls[k], files, e);
    if k == i {
      RegionLaws(files, Touches(h.resolve, calls[i]), part, e.part);
      CompleteTail(h, calls, k + 1, next, phases, phases[i := p]);
    } else if Clash(h.resolve, calls[k], calls[i]) {
      OverChangesNothing(h, calls[k], phases[k], files);
      OverChangesNothing(h, calls[k], phases[k], moved);
      MoveKeepsOutcome(h, calls, k + 1, i, files, phases, part, p);
    } else {
      ClashEitherWay(h.resolve, calls[k], calls[i]);
      ApartCalls(h, calls[i], calls[k], files, part, e);
      MoveKeepsOutcome(h, calls, k + 1, i, next, phases, part, p);
    }
  }

  lemma ClashEitherWay(resolve: string -> string, c: ToolCall, d: ToolCall)
    ensures Clash(resolve, c, d) <==> Clash(resolve, d, c)
  {
  }

  /** Serial call i, at list position m, has been entered or is the next to be entered. */
  ghost predicate MayRun(plan: Plan, s: System, i: nat, m: nat)
    requires PlanOk(|s.phases|, plan) && m < |plan.serial|
  {
    plan.serial[m] == i && (m == s.serialNext > 0 ==> s.phases[plan.serial[m - 1]].Gone?)
  }

  /** A call that may move has every earlier call it clashes with behind it. */
  lemma EarlierGone(h: Harness, calls: seq<ToolCall>, plan: Plan, s: System, i: nat)
    requires Partitions(calls, |calls|, plan) && Inv(h, calls, plan, s) && InOrder(h.resolve, calls) && i < |calls|
    requires
      || (i in plan.independent)
      || (s.waited && exists m | 0 <= m <= s.serialNext && m < |plan.serial| :: MayRun(plan, s, i, m))
    ensures forall j | 0 <= j < i && Clash(h.resolve, calls[j], calls[i]) :: s.phases[j].Gone?
  {
    hide Independent, Clash, SlotInv, LockInv, ResultInv;
    forall j | 0 <= j < i && Clash(h.resolve, calls[j], calls[i])
      ensures s.phases[j].Gone?
    {
      assert !Independent(calls, i);
      assert i in plan.serial && i !in plan.independent;
      if j in plan.serial {
        var m :| 0 <= m <= s.serialNext && m < |plan.serial| && MayRun(plan, s, i, m);
        var l :| 0 <= l < |plan.serial| && plan.serial[l] == j;
        assert l < m;
      }
    }
  }

  /** An action changes only the call's own part, and not what the call comes to. */
  lemma ActKeepsRemaining(h: Harness, calls: seq<ToolCall>, s: System, i: nat)
    requires |s.phases| == |s.results| == |calls| && i < |calls| && Live(s.phases[i])
    ensures var s', call := Act(h, calls, s, i), calls[i];
            var part := Part(s'.files, Touches(h.resolve, call));
            && s'.files == Moved(h, call, s.files, part)
            && Remaining(h, call, s'.phases[i], View(h, call, s'.files))
                == Remaining(h, call, s.phases[i], View(h, call, s.files))
  {
    hide Sees, Touches, Part, Replace;
    var call := calls[i];
    var s', t, v := Act(h, calls, s, i), Touches(h.resolve, call), Sees(h.resolve, call);
    RegionLaws(s.files, t, s'.files, s'.files);
    RegionLaws(s'.files, t, s'.files, s'.files);
    TouchesWithinSees(h.resolve, call);
    if s.phases[i].Loaded? {
      var e := RunTool(h, call, s.phases[i].seen);
      RegionLaws(s.files, t, e.part, e.part);
      PartOfPart(s'.files, t, v);
      PartAgain(h.after(call, s.phases[i].seen), t);
      RegionLaws(s.files, t, e.part, s'.files);
    } else if s.phases[i].Started? && Writes(call.name) {
      WriterSeesTarget(h, call, s.files);
    }
  }

  lemma PartAgain(files: Files, r: Region)
    ensures Part(Part(files, r), r) == Part(files, r)
  {
  }

  lemma WriterSeesTarget(h: Harness, call: ToolCall, files: Files)
    requires Writes(call.name)
    ensures Cell(View(h, call, files), Target(h.resolve, call)) == Cell(files, Target(h.resolve, call))
  {
  }

  lemma StepKeepsOutcome(h: Harness, calls: seq<ToolCall>, plan: Plan, s: System, t: Step)
    requires Partitions(calls, |calls|, plan) && Inv(h, calls, plan, s) && InOrder(h.resolve, calls)
    requires Enabled(h, calls, plan, s, t)
    ensures var s' := Take(h, calls, plan, s, t);
            |s'.phases| == |calls| && Complete(h, calls, 0, s'.files, s'.phases)
                == Complete(h, calls, 0, s.files, s.phases)
  {
    hide Independent, Clash, Touches, Sees, Part, Replace, Complete, InOrder;
    var s' := Take(h, calls, plan, s, t);
    if t == Wait { return; }
    var i := match t
             case Launch => plan.independent[s.launched]
             case RunSerial => plan.serial[s.serialNext]
             case Advance(i) => i;
    if i in plan.serial {
      var m :| 0 <= m < |plan.serial| && plan.serial[m] == i;
      assert m <= s.serialNext && s.waited;
      assert MayRun(plan, s, i, m);
    }
    EarlierGone(h, calls, plan, s, i);
    var part := Part(s'.files, Touches(h.resolve, calls[i]));
    if t.Advance? {
      ActFrame(h, calls, s, i);
      ActKeepsRemaining(h, calls, s, i);
    } else {
      RegionLaws(s.files, Touches(h.resolve, calls[i]), s.files, s.files);
    }
    MoveKeepsOutcome(h, calls, 0, i, s.files, s.phases, part, s'.phases[i]);
  }

  // ---------------------------------------------------------------- schedules

  /** The state after a schedule, or None when some step of it was not enabled. */
  function Exec(h: Harness, calls: seq<ToolCall>, plan: Plan, s: System, steps: seq<Step>): Option<System>
    decreases |steps|
  {
    if steps == [] then Some(s)
    else if Shaped(calls, plan, s) && Enabled(h, calls, plan, s, steps[0]) then
      Exec(h, calls, plan, Take(h, calls, plan, s, steps[0]), steps[1..])
    else None
  }

  /** `dispatchTools` has returned. */
  predicate Done(plan: Plan, s: System) {
    s.waited && s.serialNext == |plan.serial| && forall i | 0 <= i < |s.phases| :: s.phases[i].Gone?
  }

  lemma {:induction false} ScheduleKeepsInv(h: Harness, calls: seq<ToolCall>, plan: Plan, s: System, steps: seq<Step>)
    requires Inv(h, calls, plan, s) && Exec(h, calls, plan, s, steps).Some?
    ensures Inv(h, calls, plan, Exec(h, calls, plan, s, steps).value)
    decreases |steps|
  {
    if steps != [] {
      StepKeepsInv(h, calls, plan, s, steps[0]);
      ScheduleKeepsInv(h, calls, plan, Take(h, calls, plan, s, steps[0]), steps[1..]);
    }
  }

  lemma {:induction false} ScheduleKeepsOutcome(h: Harness, calls: seq<ToolCall>, plan: Plan, s: System,
      steps: seq<Step>)
    requires Partitions(calls, |calls|, plan) && Inv(h, calls, plan, s) && InOrder(h.resolve, calls)
    requires Exec(h, calls, plan, s, steps).Some?
    ensures var s' := Exec(h, calls, plan, s, steps).value;
            |s'.phases| == |calls| && Complete(h, calls, 0, s'.files, s'.phases)
                == Complete(h, calls, 0, s.files, s.phases)
    decreases |steps|
  {
    if steps != [] {
      StepKeepsInv(h, calls, plan, s, steps[0]);
      StepKeepsOutcome(h, calls, plan, s, steps[0]);
      ScheduleKeepsOutcome(h, calls, plan, Take(h, calls, plan, s, steps[0]), steps[1..]);
    }
  }

  ghost predicate SameAsOneByOne(h: Harness, calls: seq<ToolCall>, files: Files, s: System) {
    var (finalFiles, contents) := OneByOne(h, calls, 0, files);
    && s.files == finalFiles
    && |s.results| == |contents| == |calls|
    && forall i | 0 <= i < |calls| :: s.results[i] == Some(contents[i])
  }

  lemma DoneOutcome(h: Harness, calls: seq<ToolCall>, plan: Plan, files: Files, s: System)
    requires Inv(h, calls, plan, s) && Done(plan, s)
    requires Complete(h, calls, 0, s.files, s.phases) == OneByOne(h, calls, 0, files)
    ensures SameAsOneByOne(h, calls, files, s)
  {
    hide Complete, OneByOne, OrderInv, SlotInv, LockInv;
    CompleteAtEnd(h, calls, 0, s.files, s.phases);
  }

  /**
   Main result: whatever the interleaving, a finished dispatch left the files of
   one-by-one execution, and slot i holds the answer of call i.
   */
  lemma EveryScheduleMatchesOneByOne(h: Harness, calls: seq<ToolCall>, plan: Plan, files: Files, steps: seq<Step>,
      s: System)
    requires Partitions(calls, |calls|, plan) && InOrder(h.resolve, calls)
    requires Exec(h, calls, plan, Start(calls, files), steps) == Some(s) && Done(plan, s)
    ensures SameAsOneByOne(h, calls, files, s)
  {
    PartitionOk(calls, plan);
    StartInv(h, calls, plan, files);
    ScheduleKeepsInv(h, calls, plan, Start(calls, files), steps);
    ScheduleKeepsOutcome(h, calls, plan, Start(calls, files), steps);
    CompleteFromStart(h, calls, 0, files, Start(calls, files).phases);
    DoneOutcome(h, calls, plan, files, s);
  }

  lemma {:induction false} ReadsChangeNothing(h: Harness, calls: seq<ToolCall>, k: nat, files: Files)
    requires k <= |calls| && forall i | 0 <= i < |calls| :: AlwaysIndependent(calls[i].name)
    ensures var (finalFiles, contents) := OneByOne(h, calls, k, files);
            && finalFiles == files && |contents| == |calls| - k
            && forall i | k <= i < |calls| :: contents[i - k] == Alone(h, calls[i], View(h, calls[i], files)).content
    decreases |calls| - k
  {
    if k < |calls| {
      assert AlwaysIndependent(calls[k].name);
      hide Alone, View;
      assert Touches(h.resolve, calls[k]) == Nowhere;
      hide KindOf, Touches, AlwaysIndependent;
      ReadsChangeNothing(h, calls, k + 1, files);
    }
  }

  /**
   A batch of reads, of the same files or not: every schedule leaves the files alone, and each
   call is answered as if it were the only one.
   */
  lemma ReadBatchAnswers(h: Harness, calls: seq<ToolCall>, plan: Plan, files: Files, steps: seq<Step>, s: System)
    requires Partitions(calls, |calls|, plan) && forall i | 0 <= i < |calls| :: AlwaysIndependent(calls[i].name)
    requires Exec(h, calls, plan, Start(calls, files), steps) == Some(s) && Done(plan, s)
    ensures s.files == files && |s.results| == |calls|
    ensures forall i | 0 <= i < |calls| :: s.results[i] == Some(Alone(h, calls[i], View(h, calls[i], files)).content)
  {
    ReadBatchInOrder(h.resolve, calls);
    hide InOrder, Exec, Partitions, Alone, View, KindOf, OneByOne;
    EveryScheduleMatchesOneByOne(h, calls, plan, files, steps, s);
    ReadsChangeNothing(h, calls, 0, files);
  }

  /**
   In every reachable state: at most `cap` goroutines run, at most one write callback runs,
   serial calls run alone, no two live writes name one path, two live calls of an in-order
   batch never clash, and a slot is filled only by its own call.
   */
  lemma EveryScheduleIsSafe(h: Harness, calls: seq<ToolCall>, plan: Plan, files: Files, steps: seq<Step>, s: System)
    requires Partitions(calls, |calls|, plan)
    requires Exec(h, calls, plan, Start(calls, files), steps) == Some(s)
    ensures |s.phases| == |s.results| == |calls|
    ensures |set i: nat | i < |calls| && i in plan.independent && Live(s.phases[i])|
         <= if h.maxParallelism > 0 then h.maxParallelism else 16
    ensures forall i, j | 0 <= i < j < |calls| :: !(s.phases[i].Confirming? && s.phases[j].Confirming?)
    ensures forall i, j | 0 <= i < |calls| && 0 <= j < |calls| && i != j && Live(s.phases[i]) && Live(s.phases[j]) ::
              Independent(calls, i) && Independent(calls, j)
    ensures forall i, j | 0 <= i < j < |calls| && Live(s.phases[i]) && Live(s.phases[j])
                          && Writes(calls[i].name) && Writes(calls[j].name) ::
              FilePath(calls[i].args) != FilePath(calls[j].args)
    ensures InOrder(h.resolve, calls) ==>
              forall i, j | 0 <= i < j < |calls| && Live(s.phases[i]) && Live(s.phases[j]) ::
                  !Clash(h.resolve, calls[i], calls[j])
    ensures forall i | 0 <= i < |calls| :: s.results[i].Some? <==> Finished(s.phases[i])
  {
    PartitionOk(calls, plan);
    StartInv(h, calls, plan, files);
    ScheduleKeepsInv(h, calls, plan, Start(calls, files), steps);
    assert s.slots == set i: nat | i < |calls| && i in plan.independent && Live(s.phases[i]);
    forall i: nat, j: nat | i < |calls| && j < |calls| && i != j && Live(s.phases[i]) && Live(s.phases[j])
      ensures Independent(calls, i)
    {
      if !Independent(calls, i) {
        SerialRunsAlone(h, calls, plan, s, i, j);
      }
    }
    forall i, j | 0 <= i < j < |calls| && Live(s.phases[i]) && Live(s.phases[j]) && Writes(calls[i].name)
        && Writes(calls[j].name)
      ensures FilePath(calls[i].args) != FilePath(calls[j].args)
    {
      WritesApart(calls, i, j);
    }
  }

  lemma WritesApart(calls: seq<ToolCall>, i: nat, j: nat)
    requires i < j < |calls| && Writes(calls[i].name) && Writes(calls[j].name) && Independent(calls, i)
    ensures FilePath(calls[i].args) != FilePath(calls[j].args)
  {
    hide KindOf;
    assert WritesTo(calls[j], FilePath(calls[j].args));
    assert !AlwaysIndependent(calls[i].name) by { WriterIsNoReader(calls[i].name); }
  }

  lemma WriterIsNoReader(name: string)
    ensures Writes(name) ==> !AlwaysIndependent(name)
  {
  }

  lemma SerialRunsAlone(h: Harness, calls: seq<ToolCall>, plan: Plan, s: System, i: nat, j: nat)
    requires Inv(h, calls, plan, s) && i < |calls| && j < |calls| && i != j
    requires i in plan.serial && Live(s.phases[i])
    ensures !Live(s.phases[j])
  {
    var m :| 0 <= m < |plan.serial| && plan.serial[m] == i;
    assert m == s.serialNext - 1;
    if j in plan.serial {
      var l :| 0 <= l < |plan.serial| && plan.serial[l] == j;
    }
  }

  // ---------------------------------------------------------------- termination

  function Weight(p: Phase): nat {
    match p
    case Pending => 8 case Started => 7 case Previewed(_) => 6 case Confirming(_) => 5 case Approved => 4
    case Loaded(_) => 3 case Returned(_) => 2 case Stored(_) => 1 case Gone(_) => 0
  }

  function Work(phases: seq<Phase>): nat {
    if phases == [] then 0 else Weight(phases[0]) + Work(phases[1..])
  }

  function Measure(s: System): nat {
    Work(s.phases) + if s.waited then 0 else 1
  }

  lemma {:induction false} WorkUpdate(phases: seq<Phase>, i: nat, p: Phase)
    requires i < |phases|
    ensures Work(phases[i := p]) + Weight(phases[i]) == Work(phases) + Weight(p)
    decreases i
  {
    if i == 0 {
      assert phases[0 := p] == [p] + phases[1..];
    } else {
      assert phases[i := p] == [phases[0]] + phases[1..][i - 1 := p];
      WorkUpdate(phases[1..], i - 1, p);
    }
  }

  /** Every step is progress: no schedule goes on for ever. */
  lemma StepDecreases(h: Harness, calls: seq<ToolCall>, plan: Plan, s: System, t: Step)
    requires Inv(h, calls, plan, s) && Enabled(h, calls, plan, s, t)
    ensures Measure(Take(h, calls, plan, s, t)) < Measure(s)
  {
    match t
    case Launch => WorkUpdate(s.phases, plan.independent[s.launched], Started);
    case Wait =>
    case RunSerial => WorkUpdate(s.phases, plan.serial[s.serialNext], Started);
    case Advance(i) =>
      var s' := Act(h, calls, s, i);
      ActFrame(h, calls, s, i);
      WorkUpdate(s.phases, i, s'.phases[i]);
  }

  /** No deadlock on the semaphore, the wait group or writeMu. */
  lemma SomeStepEnabled(h: Harness, calls: seq<ToolCall>, plan: Plan, s: System) returns (t: Step)
    requires Inv(h, calls, plan, s) && !Done(plan, s)
    ensures Enabled(h, calls, plan, s, t)
    ensures t.Advance? ==> t.i < |calls|
  {
    if i: nat :| i < |calls| && Live(s.phases[i]) {
      t := Advance(if s.phases[i].Previewed? && s.lock.Some? then s.lock.value else i);
    } else if s.launched < |plan.independent| {
      assert s.slots == {};
      t := Launch;
    } else if !s.waited {
      t := Wait;
    } else {
      t := RunSerial;
    }
  }

  /** From any reachable state some schedule brings the dispatch home. */
  lemma {:induction false} CanFinish(h: Harness, calls: seq<ToolCall>, plan: Plan, s: System) returns (steps: seq<Step>)
    requires Inv(h, calls, plan, s)
    ensures Exec(h, calls, plan, s, steps).Some? && Done(plan, Exec(h, calls, plan, s, steps).value)
    decreases Measure(s)
  {
    if Done(plan, s) {
      steps := [];
    } else {
      var t := SomeStepEnabled(h, calls, plan, s);
      StepKeepsInv(h, calls, plan, s, t);
      StepDecreases(h, calls, plan, s, t);
      var rest := CanFinish(h, calls, plan, Take(h, calls, plan, s, t));
      steps := [t] + rest;
    }
  }

  function EnabledSteps(h: Harness, calls: seq<ToolCall>, plan: Plan, s: System): set<Step>
    requires Shaped(calls, plan, s)
  {
    set t | t in {Launch, Wait, RunSerial} + (set i: nat | i < |calls| :: Advance(i)) && Enabled(h, calls, plan, s, t)
  }

  /** `dispatchTools`, the scheduler picking any enabled step each time. */
  method DispatchTools(h: Harness, calls: seq<ToolCall>, files: Files)
    returns (finalFiles: Files, contents: seq<string>)
    ensures |contents| == |calls|
    ensures InOrder(h.resolve, calls) ==> (finalFiles, contents) == OneByOne(h, calls, 0, files)
  {
    hide Complete, OneByOne, Independent, Act, Measure, InOrder;
    var plan := Partition(calls);
    var s := Start(calls, files);
    PartitionOk(calls, plan);
    StartInv(h, calls, plan, files);
    CompleteFromStart(h, calls, 0, files, s.phases);
    while !Done(plan, s)
      invariant Inv(h, calls, plan, s)
      invariant InOrder(h.resolve, calls) ==> Complete(h, calls, 0, s.files, s.phases) == OneByOne(h, calls, 0, files)
      decreases Measure(s)
    {
      ghost var some := SomeStepEnabled(h, calls, plan, s);
      assert some in EnabledSteps(h, calls, plan, s);
      var t :| t in EnabledSteps(h, calls, plan, s);
      StepKeepsInv(h, calls, plan, s, t);
      StepDecreases(h, calls, plan, s, t);
      if InOrder(h.resolve, calls) {
        StepKeepsOutcome(h, calls, plan, s, t);
      }
      s := Take(h, calls, plan, s, t);
    }
    finalFiles := s.files;
    contents := seq(|calls|, i requires 0 <= i < |calls| => s.results[i].value);
    if InOrder(h.resolve, calls) {
      DoneOutcome(h, calls, plan, files, s);
      assert contents == OneByOne(h, calls, 0, files).1;
    }
  }
}
