/**
 When concurrent dispatch and one-by-one execution can be told apart (internal/agent/loop.go,
 `dispatchTools` and `isIndependentTool`): exactly when a call overtakes an earlier one it
 clashes with. Probing tools that leave and report marks show it.
 */
module DispatchOrder {
  import opened Backend
  import opened Options
  import opened Dispatch

  /**
   Every finished schedule matches one-by-one execution, whatever the tools do within the parts
   they see and touch.
   */
  ghost predicate AlwaysMatches(resolve: string -> string, calls: seq<ToolCall>, plan: Plan) {
    forall h: Harness, files, steps, s |
      h.resolve == resolve && Exec(h, calls, plan, Start(calls, files), steps) == Some(s) && Done(plan, s) ::
      SameAsOneByOne(h, calls, files, s)
  }

  /** The marks left in a file. */
  function Marks(files: Files, q: string): string {
    if q in files then files[q] else ""
  }

  /** Tools that answer with the marks on file q they see; one call also adds a mark. */
  function Probe(resolve: string -> string, plan: Plan, marker: ToolCall, q: string): Harness {
    Harness(resolve, _ => None, false, (_, _) => None,
            (call, view) => if call == marker then view[q := Marks(view, q) + "x"] else view,
            (_, view) => Marks(view, q),
            |plan.independent| + 1)
  }

  lemma ProbeSettings(resolve: string -> string, plan: Plan, marker: ToolCall, q: string, call: ToolCall)
    ensures var h := Probe(resolve, plan, marker, q);
            |plan.independent| < Cap(h) && h.refuse(call).None? && !h.confirms && h.resolve == resolve
  {
  }

  /** What a probe leaves of the files when it runs on them. */
  function Marked(resolve: string -> string, call: ToolCall, marker: ToolCall, q: string, files: Files): Files {
    if call == marker && In(q, Touches(resolve, call)) then files[q := Marks(files, q) + "x"] else files
  }

  lemma ProbeRuns(resolve: string -> string, plan: Plan, marker: ToolCall, q: string, call: ToolCall, files: Files)
    ensures var h := Probe(resolve, plan, marker, q); var e := RunTool(h, call, View(h, call, files));
            && Alone(h, call, View(h, call, files)) == e
            && e.content == (if In(q, Sees(resolve, call)) then Marks(files, q) else "")
            && Apply(h, call, files, e) == Marked(resolve, call, marker, q, files)
  {
    hide KindOf, FilePath;
  }

  lemma {:induction false} ExecConcat(h: Harness, calls: seq<ToolCall>, plan: Plan, s: System, a: seq<Step>,
      b: seq<Step>)
    requires Exec(h, calls, plan, s, a).Some?
    ensures Exec(h, calls, plan, s, a + b) == Exec(h, calls, plan, Exec(h, calls, plan, s, a).value, b)
    decreases |a|
  {
    if a == [] {
      assert a + b == b;
    } else {
      assert (a + b)[1..] == a[1..] + b;
      ExecConcat(h, calls, plan, Take(h, calls, plan, s, a[0]), a[1..], b);
    }
  }

  lemma LaunchOne(h: Harness, calls: seq<ToolCall>, plan: Plan, s: System) returns (next: System)
    requires Inv(h, calls, plan, s) && |s.phases| == |calls| && s.launched < |plan.independent| && |s.slots| < Cap(h)
    requires forall i | 0 <= i < |calls| :: s.phases[i].Pending? || s.phases[i].Started?
    ensures Exec(h, calls, plan, s, [Launch]) == Some(next) && Inv(h, calls, plan, next) && |next.phases| == |calls|
    ensures next.launched == s.launched + 1 && |next.slots| <= |s.slots| + 1 && next.files == s.files
    ensures forall i | 0 <= i < |calls| :: next.phases[i].Pending? || next.phases[i].Started?
  {
    next := Take(h, calls, plan, s, Launch);
    StepKeepsInv(h, calls, plan, s, Launch);
  }

  /** k goroutines are launched before any of them runs. */
  lemma {:induction false} LaunchMany(h: Harness, calls: seq<ToolCall>, plan: Plan, k: nat)
    returns (steps: seq<Step>, s: System)
    requires Partitions(calls, |calls|, plan) && k <= |plan.independent| < Cap(h)
    ensures Exec(h, calls, plan, Start(calls, map[]), steps) == Some(s)
    ensures Inv(h, calls, plan, s) && |s.phases| == |calls| && s.launched == k && |s.slots| <= k && s.files == map[]
    ensures forall i | 0 <= i < |calls| :: s.phases[i].Pending? || s.phases[i].Started?
  {
    hide Independent, OrderInv, SlotInv, LockInv, ResultInv, Inv, Take, Enabled;
    PartitionOk(calls, plan);
    if k == 0 {
      steps, s := [], Start(calls, map[]);
      StartInv(h, calls, plan, map[]);
    } else {
      steps, s := LaunchMany(h, calls, plan, k - 1);
      ExecConcat(h, calls, plan, Start(calls, map[]), steps, [Launch]);
      var next := LaunchOne(h, calls, plan, s);
      steps, s := steps + [Launch], next;
    }
  }

  /** The three actions that take a started probe to its answer. */
  function ThreeActs(j: nat): seq<Step> { [Advance(j)] + ([Advance(j)] + ([Advance(j)] + [])) }

  lemma ExecFirst(h: Harness, calls: seq<ToolCall>, plan: Plan, s: System, t: Step, rest: seq<Step>)
    requires Inv(h, calls, plan, s) && Enabled(h, calls, plan, s, t)
    ensures Exec(h, calls, plan, s, [t] + rest) == Exec(h, calls, plan, Take(h, calls, plan, s, t), rest)
    ensures Inv(h, calls, plan, Take(h, calls, plan, s, t))
  {
    StepKeepsInv(h, calls, plan, s, t);
    assert ([t] + rest)[1..] == rest;
  }

  /** A started probe runs alone up to its answer: what it sees of the present files. */
  lemma RunAhead(h: Harness, calls: seq<ToolCall>, plan: Plan, s: System, j: nat) returns (s': System)
    requires Inv(h, calls, plan, s) && j < |calls| == |s.phases| && s.phases[j].Started?
    requires h.refuse(calls[j]).None? && !h.confirms
    ensures Exec(h, calls, plan, s, ThreeActs(j)) == Some(s') && Inv(h, calls, plan, s')
    ensures var e := RunTool(h, calls[j], View(h, calls[j], s.files));
            s'.phases == s.phases[j := Returned(e.content)] && s'.files == Apply(h, calls[j], s.files, e)
  {
    hide Independent, RunTool, View, Apply, Inv;
    var a := Advance(j);
    LiveStarted(h, calls, plan, s, j);
    var s1 := Act(h, calls, s, j);
    ExecFirst(h, calls, plan, s, a, [a] + ([a] + []));
    LiveStarted(h, calls, plan, s1, j);
    var s2 := Act(h, calls, s1, j);
    ExecFirst(h, calls, plan, s1, a, [a] + []);
    LiveStarted(h, calls, plan, s2, j);
    s' := Act(h, calls, s2, j);
    ExecFirst(h, calls, plan, s2, a, []);
  }

  lemma LiveStarted(h: Harness, calls: seq<ToolCall>, plan: Plan, s: System, j: nat)
    requires Inv(h, calls, plan, s) && j < |calls| == |s.phases|
    requires Live(s.phases[j]) && !s.phases[j].Previewed?
    ensures |s.phases| == |s.results| && Shaped(calls, plan, s) && Enabled(h, calls, plan, s, Advance(j))
        && Take(h, calls, plan, s, Advance(j)) == Act(h, calls, s, j)
  {
    hide Act;
  }

  predicate Answered(p: Phase, c: string) {
    (p.Returned? || Finished(p)) && p.content == c
  }

  lemma AnswerKept(h: Harness, calls: seq<ToolCall>, plan: Plan, s: System, t: Step, j: nat, c: string)
    requires Inv(h, calls, plan, s) && Enabled(h, calls, plan, s, t) && j < |calls| && Answered(s.phases[j], c)
    ensures var s' := Take(h, calls, plan, s, t); |s'.phases| == |calls| && Answered(s'.phases[j], c)
  {
    hide RunTool, View, Apply;
    if t.Advance? {
      ActFrame(h, calls, s, t.i);
    }
  }

  /** A given answer is final. */
  lemma {:induction false} AnswerSticks(h: Harness, calls: seq<ToolCall>, plan: Plan, s: System, steps: seq<Step>,
      j: nat, c: string)
    requires Inv(h, calls, plan, s) && Exec(h, calls, plan, s, steps).Some? && j < |calls| && Answered(s.phases[j], c)
    ensures var s' := Exec(h, calls, plan, s, steps).value;
            |s'.phases| == |calls| && Answered(s'.phases[j], c)
    decreases |steps|
  {
    hide Answered;
    if steps != [] {
      StepKeepsInv(h, calls, plan, s, steps[0]);
      AnswerKept(h, calls, plan, s, steps[0], j, c);
      AnswerSticks(h, calls, plan, Take(h, calls, plan, s, steps[0]), steps[1..], j, c);
    }
  }

  /** Launch all goroutines up to j's, run j to its answer, then i if it is one of them. */
  lemma Overtaking(h: Harness, calls: seq<ToolCall>, plan: Plan, j: nat) returns (steps: seq<Step>, s: System)
    requires Partitions(calls, |calls|, plan) && j < |calls| && Independent(calls, j) && |plan.independent| < Cap(h)
    requires h.refuse(calls[j]).None? && !h.confirms
    ensures Exec(h, calls, plan, Start(calls, map[]), steps) == Some(s) && Inv(h, calls, plan, s)
        && |s.phases| == |calls|
    ensures var e := RunTool(h, calls[j], View(h, calls[j], map[]));
            s.phases[j] == Returned(e.content) && s.files == Apply(h, calls[j], map[], e)
    ensures forall i: nat | i < j && Independent(calls, i) :: s.phases[i].Started?
  {
    hide Independent, RunTool, View, Apply;
    assert j in plan.independent;
    var m :| 0 <= m < |plan.independent| && plan.independent[m] == j;
    var a, s1 := LaunchMany(h, calls, plan, m + 1);
    StartedBefore(h, calls, plan, s1, m);
    s := RunAhead(h, calls, plan, s1, j);
    steps := a + ThreeActs(j);
    ExecConcat(h, calls, plan, Start(calls, map[]), a, ThreeActs(j));
  }

  lemma EarlierIndex(list: seq<nat>, l: nat, m: nat)
    requires Increasing(list) && l < |list| && m < |list| && list[l] < list[m]
    ensures l < m
  {
  }

  /** All independent calls up to the m-th were launched. */
  lemma StartedBefore(h: Harness, calls: seq<ToolCall>, plan: Plan, s: System, m: nat)
    requires Partitions(calls, |calls|, plan) && Inv(h, calls, plan, s) && m < |plan.independent| && s.launched == m + 1
    requires forall i | 0 <= i < |calls| :: s.phases[i].Pending? || s.phases[i].Started?
    ensures s.phases[plan.independent[m]].Started?
    ensures forall i: nat | i < plan.independent[m] && Independent(calls, i) :: s.phases[i].Started?
  {
    hide Independent, SlotInv, LockInv, ResultInv;
    forall i: nat | i < plan.independent[m] && Independent(calls, i)
      ensures s.phases[i].Started?
    {
      assert i in plan.independent;
      var l :| 0 <= l < |plan.independent| && plan.independent[l] == i;
      EarlierIndex(plan.independent, l, m);
    }
  }

  /** Any schedule can be run to its end, and an answer given on the way is the result. */
  lemma FinishWith(h: Harness, calls: seq<ToolCall>, plan: Plan, files: Files, a: seq<Step>, s: System, j: nat,
      c: string)
    returns (steps: seq<Step>, end: System)
    requires Exec(h, calls, plan, Start(calls, files), a) == Some(s) && Inv(h, calls, plan, s) && j < |calls|
        && Answered(s.phases[j], c)
    ensures Exec(h, calls, plan, Start(calls, files), steps) == Some(end) && Done(plan, end)
    ensures |end.results| == |calls| && end.results[j] == Some(c)
  {
    hide OrderInv, SlotInv, LockInv;
    var b := CanFinish(h, calls, plan, s);
    end := Exec(h, calls, plan, s, b).value;
    AnswerSticks(h, calls, plan, s, b, j, c);
    ScheduleKeepsInv(h, calls, plan, s, b);
    steps := a + b;
    ExecConcat(h, calls, plan, Start(calls, files), a, b);
  }

  // ---------------------------------------------------------------- one by one

  /** One by one, a probe that sees q sees at least the mark of every earlier marker. */
  lemma {:induction false} SeesEarlierMark(resolve: string -> string, calls: seq<ToolCall>, plan: Plan, q: string,
      k: nat, i: nat, j: nat, files: Files)
    requires k <= j < |calls| && i < j && In(q, Sees(resolve, calls[j])) && In(q, Touches(resolve, calls[i]))
    ensures var contents := OneByOne(Probe(resolve, plan, calls[i], q), calls, k, files).1;
            |contents| == |calls| - k && |contents[j - k]| >= |Marks(files, q)| + if k <= i then 1 else 0
    decreases |calls| - k
  {
    hide Probe, Alone, RunTool, View, Apply, Sees, Touches;
    var h := Probe(resolve, plan, calls[i], q);
    ProbeRuns(resolve, plan, calls[i], q, calls[k], files);
    var next := Marked(resolve, calls[k], calls[i], q, files);
    if k < j {
      SeesEarlierMark(resolve, calls, plan, q, k + 1, i, j, next);
    } else {
      OneByOneLength(h, calls, k + 1, next);
    }
  }

  /** One by one, nothing is seen of a marker that comes later. */
  lemma {:induction false} SeesNoLaterMark(resolve: string -> string, calls: seq<ToolCall>, plan: Plan,
      marker: ToolCall, q: string, k: nat, i: nat, files: Files)
    requires k <= i < |calls| && Marks(files, q) == "" && forall m | k <= m < i :: calls[m] != marker
    ensures var contents := OneByOne(Probe(resolve, plan, marker, q), calls, k, files).1;
            |contents| == |calls| - k && contents[i - k] == ""
    decreases |calls| - k
  {
    hide Probe, Alone, RunTool, View, Apply, Sees, Touches;
    var h := Probe(resolve, plan, marker, q);
    ProbeRuns(resolve, plan, marker, q, calls[k], files);
    var next := Marked(resolve, calls[k], marker, q, files);
    if k < i {
      SeesNoLaterMark(resolve, calls, plan, marker, q, k + 1, i, next);
    } else {
      OneByOneLength(h, calls, k + 1, next);
    }
  }

  lemma {:induction false} OneByOneLength(h: Harness, calls: seq<ToolCall>, k: nat, files: Files)
    requires k <= |calls|
    ensures |OneByOne(h, calls, k, files).1| == |calls| - k
    decreases |calls| - k
  {
    hide Alone, View, Apply;
    if k < |calls| {
      OneByOneLength(h, calls, k + 1, Apply(h, calls[k], files, Alone(h, calls[k], View(h, calls[k], files))));
    }
  }

  // ---------------------------------------------------------------- an overtaking call can be told apart

  /** The overtaken call changes what the overtaking one looks at: the latter misses its mark. */
  lemma MissedMarkShows(resolve: string -> string, calls: seq<ToolCall>, plan: Plan, i: nat, j: nat)
    requires Partitions(calls, |calls|, plan) && i < j < |calls| && Independent(calls, j)
    requires Overlap(Touches(resolve, calls[i]), Sees(resolve, calls[j]))
    ensures !AlwaysMatches(resolve, calls, plan)
  {
    hide KindOf, Independent, Inv, Partitions, OneByOne;
    var q := Common(Touches(resolve, calls[i]), Sees(resolve, calls[j]));
    var h := Probe(resolve, plan, calls[i], q);
    var a, s := Overtaking(h, calls, plan, j);
    ProbeRuns(resolve, plan, calls[i], q, calls[j], map[]);
    assert Answered(s.phases[j], "");
    var steps, end := FinishWith(h, calls, plan, map[], a, s, j, "");
    SeesEarlierMark(resolve, calls, plan, q, 0, i, j, map[]);
    Differs(h, calls, map[], end, j, "");
    NotAlways(h, calls, plan, steps, end);
  }

  lemma NotAlways(h: Harness, calls: seq<ToolCall>, plan: Plan, steps: seq<Step>, end: System)
    requires Exec(h, calls, plan, Start(calls, map[]), steps) == Some(end) && Done(plan, end)
    requires !SameAsOneByOne(h, calls, map[], end)
    ensures !AlwaysMatches(h.resolve, calls, plan)
  {
    hide SameAsOneByOne, Exec, Done;
  }

  /** A path in two overlapping regions. */
  function Common(r: Region, q: Region): (path: string)
    requires Overlap(r, q)
    ensures In(path, r) && In(path, q)
  {
    match r case Only(p) => p case Everywhere => (match q case Only(p) => p case _ => "")
  }

  /** A schedule in which i, launched before j, answers after j has written. */
  lemma WriterFirst(h: Harness, calls: seq<ToolCall>, plan: Plan, i: nat, j: nat, c: string)
    returns (steps: seq<Step>, end: System)
    requires Partitions(calls, |calls|, plan) && i < j < |calls| && Independent(calls, i) && Independent(calls, j)
    requires |plan.independent| < Cap(h) && h.refuse(calls[i]).None? && h.refuse(calls[j]).None? && !h.confirms
    requires var files := Apply(h, calls[j], map[], RunTool(h, calls[j], View(h, calls[j], map[])));
             RunTool(h, calls[i], View(h, calls[i], files)).content == c
    ensures Exec(h, calls, plan, Start(calls, map[]), steps) == Some(end) && Done(plan, end)
    ensures |end.results| == |calls| && end.results[i] == Some(c)
  {
    hide Independent, Inv, Partitions, Apply, RunTool, View, Exec, Done;
    var a, s := Overtaking(h, calls, plan, j);
    var s2 := RunAhead(h, calls, plan, s, i);
    assert Answered(s2.phases[i], c);
    ExecConcat(h, calls, plan, Start(calls, map[]), a, ThreeActs(i));
    steps, end := FinishWith(h, calls, plan, map[], a + ThreeActs(i), s2, i, c);
  }

  /** The overtaking call is a write to what the overtaken read looks at: the latter sees a mark too early. */
  lemma EarlyMarkShows(resolve: string -> string, calls: seq<ToolCall>, plan: Plan, i: nat, j: nat)
    requires Partitions(calls, |calls|, plan) && i < j < |calls| && Independent(calls, j)
    requires Overlap(Touches(resolve, calls[j]), Sees(resolve, calls[i]))
        && !Overlap(Touches(resolve, calls[i]), Sees(resolve, calls[j]))
    ensures !AlwaysMatches(resolve, calls, plan)
  {
    hide *;
    ReaderAndWriter(resolve, calls, i, j);
    var q := Target(resolve, calls[j]);
    var h := Probe(resolve, plan, calls[j], q);
    ProbeSettings(resolve, plan, calls[j], q, calls[i]);
    ProbeSettings(resolve, plan, calls[j], q, calls[j]);
    WriterLeavesMark(resolve, plan, calls[j], calls[i], q);
    var steps, end := WriterFirst(h, calls, plan, i, j, "x");
    SeesNoLaterMark(resolve, calls, plan, calls[j], q, 0, i, map[]);
    Differs(h, calls, map[], end, i, "x");
    NotAlways(h, calls, plan, steps, end);
  }

  /** The marking write leaves its mark, and a call that sees the file reports it. */
  lemma WriterLeavesMark(resolve: string -> string, plan: Plan, writer: ToolCall, reader: ToolCall, q: string)
    requires In(q, Touches(resolve, writer)) && In(q, Sees(resolve, reader))
    ensures var h := Probe(resolve, plan, writer, q);
            var files := Apply(h, writer, map[], RunTool(h, writer, View(h, writer, map[])));
            RunTool(h, reader, View(h, reader, files)).content == "x"
    ensures Marks(map[], q) == ""
  {
    hide KindOf, Sees, Touches, Target, Probe, RunTool, View, Apply;
    var h := Probe(resolve, plan, writer, q);
    ProbeRuns(resolve, plan, writer, q, writer, map[]);
    var files := Marked(resolve, writer, writer, q, map[]);
    assert Marks(map[], q) == "" && "" + "x" == "x";
    ProbeRuns(resolve, plan, writer, q, reader, files);
  }

  lemma Differs(h: Harness, calls: seq<ToolCall>, files: Files, end: System, i: nat, c: string)
    requires |end.results| == |calls| && i < |calls| && end.results[i] == Some(c)
    requires var contents := OneByOne(h, calls, 0, files).1; |contents| == |calls| && contents[i] != c
    ensures !SameAsOneByOne(h, calls, files, end)
  {
  }

  /** In that case j is the only write of its text to its file, and i a concurrent read that sees the file. */
  lemma ReaderAndWriter(resolve: string -> string, calls: seq<ToolCall>, i: nat, j: nat)
    requires i < j < |calls| && Independent(calls, j)
    requires Overlap(Touches(resolve, calls[j]), Sees(resolve, calls[i]))
        && !Overlap(Touches(resolve, calls[i]), Sees(resolve, calls[j]))
    ensures Independent(calls, i) && In(Target(resolve, calls[j]), Sees(resolve, calls[i]))
    ensures In(Target(resolve, calls[j]), Touches(resolve, calls[j]))
    ensures Touches(resolve, calls[j]) == Sees(resolve, calls[j]) == Only(Target(resolve, calls[j]))
    ensures forall m | 0 <= m < j :: calls[m] != calls[j]
  {
    hide KindOf;
    assert Writes(calls[j].name);
    forall m | 0 <= m < j
      ensures calls[m] != calls[j]
    {
      assert !WritesTo(calls[m], FilePath(calls[j].args));
    }
  }

  /** Exactly the batches in which no call overtakes an earlier one it clashes with are order-faithful. */
  lemma MatchesIffInOrder(resolve: string -> string, calls: seq<ToolCall>, plan: Plan)
    requires Partitions(calls, |calls|, plan)
    ensures AlwaysMatches(resolve, calls, plan) <==> InOrder(resolve, calls)
  {
    hide Partitions, Exec, Done, SameAsOneByOne, Independent;
    if InOrder(resolve, calls) {
      forall h: Harness, files, steps, s |
        h.resolve == resolve && Exec(h, calls, plan, Start(calls, files), steps) == Some(s) && Done(plan, s)
        ensures SameAsOneByOne(h, calls, files, s)
      {
        EveryScheduleMatchesOneByOne(h, calls, plan, files, steps, s);
      }
    } else {
      var i, j :| 0 <= i < j < |calls| && Clash(resolve, calls[i], calls[j]) && Independent(calls, j);
      if Overlap(Touches(resolve, calls[i]), Sees(resolve, calls[j])) {
        MissedMarkShows(resolve, calls, plan, i, j);
      } else {
        EarlyMarkShows(resolve, calls, plan, i, j);
      }
    }
  }
}
