/**
 What concurrent dispatch answers and writes (internal/agent/loop.go, `dispatchTools` and
 `executeSingle`), in any schedule of any batch: which calls run, what each is told, and
 which files change. Nothing here refers to running the calls one by one.
 */
module DispatchAnswers {
  import opened Backend
  import opened Options
  import opened Dispatch

  /** The calls whose effect the user is asked about first. */
  predicate Asked(h: Harness, call: ToolCall) {
    h.confirms && (call.name == "write_file" || call.name == "edit_file")
  }

  /** The files at some point of the run, as the call's tool sees them. */
  ghost predicate Viewed(h: Harness, call: ToolCall, seen: set<Files>, view: Files) {
    exists f <- seen :: view == Part(f, Sees(h.resolve, call))
  }

  /** What the callback may have been shown: the target's content at some point of the run. */
  ghost predicate Shown(h: Harness, call: ToolCall, seen: set<Files>, before: Option<string>) {
    exists f <- seen :: before == Cell(f, h.resolve(FilePath(call.args)))
  }

  /** The call is let through: not refused, and not rejected for the content that was shown. */
  ghost predicate LetThrough(h: Harness, call: ToolCall, seen: set<Files>) {
    && h.refuse(call).None?
    && (Asked(h, call) ==> exists before :: Shown(h, call, seen, before) && h.confirm(call, before).None?)
  }

  /** The answer is the refusal, or the rejection of what was shown, and never the tool's. */
  ghost predicate TurnedDown(h: Harness, call: ToolCall, seen: set<Files>, c: string) {
    if h.refuse(call).Some? then h.refuse(call) == Some(c)
    else Asked(h, call) && exists before :: Shown(h, call, seen, before) && h.confirm(call, before) == Some(c)
  }

  /** The tool ran on a view it had, and this is what it said. */
  ghost predicate Ran(h: Harness, call: ToolCall, seen: set<Files>, c: string) {
    LetThrough(h, call, seen) && exists view :: Viewed(h, call, seen, view) && c == h.output(call, view)
  }

  /** What is known of a call in each phase; `seen` are the files so far. */
  ghost predicate PhaseOk(h: Harness, call: ToolCall, p: Phase, seen: set<Files>) {
    match p
    case Pending => true
    case Started => true
    case Previewed(before) => h.refuse(call).None? && Asked(h, call) && Shown(h, call, seen, before)
    case Confirming(before) => h.refuse(call).None? && Asked(h, call) && Shown(h, call, seen, before)
    case Approved => LetThrough(h, call, seen)
    case Loaded(view) => LetThrough(h, call, seen) && Viewed(h, call, seen, view)
    case Returned(c) => TurnedDown(h, call, seen, c) || Ran(h, call, seen, c)
    case Stored(c) => TurnedDown(h, call, seen, c) || Ran(h, call, seen, c)
    case Gone(c) => TurnedDown(h, call, seen, c) || Ran(h, call, seen, c)
  }

  ghost predicate AllOk(h: Harness, calls: seq<ToolCall>, s: System, seen: set<Files>) {
    && |s.phases| == |s.results| == |calls| && s.files in seen
    && forall i | 0 <= i < |calls| :: PhaseOk(h, calls[i], s.phases[i], seen)
  }

  /** The files at every point of a run. */
  function FilesSeen(h: Harness, calls: seq<ToolCall>, plan: Plan, s: System, steps: seq<Step>): set<Files>
    requires Exec(h, calls, plan, s, steps).Some?
    decreases |steps|
  {
    {s.files} + if steps == [] then {} else FilesSeen(h, calls, plan, Take(h, calls, plan, s, steps[0]), steps[1..])
  }

  lemma SeenMore(h: Harness, call: ToolCall, p: Phase, seen: set<Files>, more: set<Files>)
    requires PhaseOk(h, call, p, seen) && seen <= more
    ensures PhaseOk(h, call, p, more)
  {
    assert forall view :: Viewed(h, call, seen, view) ==> Viewed(h, call, more, view);
    assert forall before :: Shown(h, call, seen, before) ==> Shown(h, call, more, before);
  }

  /** One action of call i keeps what is known of it. */
  lemma ActKeepsPhase(h: Harness, calls: seq<ToolCall>, s: System, i: nat, seen: set<Files>)
    requires AllOk(h, calls, s, seen) && i < |calls| && Live(s.phases[i])
    ensures PhaseOk(h, calls[i], Act(h, calls, s, i).phases[i], seen)
  {
    var call := calls[i];
    assert PhaseOk(h, call, s.phases[i], seen);
    assert Shown(h, call, seen, Cell(s.files, Target(h.resolve, call)));
    assert Viewed(h, call, seen, View(h, call, s.files));
  }

  lemma StepKeepsOk(h: Harness, calls: seq<ToolCall>, plan: Plan, s: System, t: Step, seen: set<Files>)
    requires AllOk(h, calls, s, seen) && Shaped(calls, plan, s) && Enabled(h, calls, plan, s, t)
    ensures AllOk(h, calls, Take(h, calls, plan, s, t), seen + {Take(h, calls, plan, s, t).files})
  {
    var s' := Take(h, calls, plan, s, t);
    var more := seen + {s'.files};
    if t.Advance? {
      ActFrame(h, calls, s, t.i);
      ActKeepsPhase(h, calls, s, t.i, seen);
    }
    forall i | 0 <= i < |calls|
      ensures PhaseOk(h, calls[i], s'.phases[i], more)
    {
      if s'.phases[i] == s.phases[i] {
        SeenMore(h, calls[i], s.phases[i], seen, more);
      } else if t.Advance? && t.i == i {
        SeenMore(h, calls[i], s'.phases[i], seen, more);
      }
    }
  }

  lemma SeenStep(h: Harness, calls: seq<ToolCall>, plan: Plan, s: System, steps: seq<Step>, seen: set<Files>)
    requires steps != [] && Exec(h, calls, plan, s, steps).Some? && s.files in seen
    ensures var s' := Take(h, calls, plan, s, steps[0]);
            seen + {s'.files} + FilesSeen(h, calls, plan, s', steps[1..]) == seen + FilesSeen(h, calls, plan, s, steps)
  {
    var s' := Take(h, calls, plan, s, steps[0]);
    assert s'.files in FilesSeen(h, calls, plan, s', steps[1..]);
  }

  lemma {:induction false} RunKeepsOk(h: Harness, calls: seq<ToolCall>, plan: Plan, s: System, steps: seq<Step>,
                                      seen: set<Files>)
    requires AllOk(h, calls, s, seen) && Exec(h, calls, plan, s, steps).Some?
    ensures AllOk(h, calls, Exec(h, calls, plan, s, steps).value, seen + FilesSeen(h, calls, plan, s, steps))
    decreases |steps|
  {
    if steps == [] {
      assert seen + {s.files} == seen;
    } else {
      var s' := Take(h, calls, plan, s, steps[0]);
      assert s.files in seen;
      hide AllOk, Take, Enabled, FilesSeen;
      SeenStep(h, calls, plan, s, steps, seen);
      StepKeepsOk(h, calls, plan, s, steps[0], seen);
      RunKeepsOk(h, calls, plan, s', steps[1..], seen + {s'.files});
    }
  }

  /**
   Every finished schedule of any batch: a refused call's slot holds exactly its refusal; any
   other slot holds the user's rejection of what was shown, or what the tool said to a view it
   had after being let through.
   */
  lemma EveryCallAnswered(h: Harness, calls: seq<ToolCall>, plan: Plan, files: Files, steps: seq<Step>, s: System,
      i: nat)
    requires Partitions(calls, |calls|, plan) && i < |calls|
    requires Exec(h, calls, plan, Start(calls, files), steps) == Some(s) && Done(plan, s)
    ensures |s.results| == |calls| && s.results[i].Some?
    ensures var seen, c := FilesSeen(h, calls, plan, Start(calls, files), steps), s.results[i].value;
            && (h.refuse(calls[i]).Some? ==> s.results[i] == h.refuse(calls[i]))
            && (h.refuse(calls[i]).None? && !Asked(h, calls[i]) ==> Ran(h, calls[i], seen, c))
            && (TurnedDown(h, calls[i], seen, c) || Ran(h, calls[i], seen, c))
            && ((forall before :: h.confirm(calls[i], before).Some?) && Asked(h, calls[i]) ==>
                  TurnedDown(h, calls[i], seen, c))
  {
    hide Exec, Partitions, Inv, TurnedDown, Ran, FilesSeen;
    PartitionOk(calls, plan);
    StartInv(h, calls, plan, files);
    ScheduleKeepsInv(h, calls, plan, Start(calls, files), steps);
    RunKeepsOk(h, calls, plan, Start(calls, files), steps, {files});
    ResultOf(h, calls, plan, s, i);
    var seen := FilesSeen(h, calls, plan, Start(calls, files), steps);
    assert {files} + seen == seen by { StartSeen(h, calls, plan, Start(calls, files), steps); }
    assert PhaseOk(h, calls[i], s.phases[i], seen);
    Disjoint(h, calls[i], seen, s.phases[i].content);
  }

  lemma StartSeen(h: Harness, calls: seq<ToolCall>, plan: Plan, s: System, steps: seq<Step>)
    requires Exec(h, calls, plan, s, steps).Some?
    ensures s.files in FilesSeen(h, calls, plan, s, steps)
  {
  }

  lemma ResultOf(h: Harness, calls: seq<ToolCall>, plan: Plan, s: System, i: nat)
    requires Inv(h, calls, plan, s) && Done(plan, s) && i < |calls|
    ensures |s.phases| == |s.results| == |calls| && s.phases[i].Gone? && s.results[i] == Some(s.phases[i].content)
  {
  }

  lemma Disjoint(h: Harness, call: ToolCall, seen: set<Files>, c: string)
    requires TurnedDown(h, call, seen, c) || Ran(h, call, seen, c)
    ensures h.refuse(call).Some? ==> h.refuse(call) == Some(c)
    ensures h.refuse(call).None? && !Asked(h, call) ==> Ran(h, call, seen, c)
    ensures (forall before :: h.confirm(call, before).Some?) && Asked(h, call) ==> TurnedDown(h, call, seen, c)
  {
  }

  // ---------------------------------------------------------------- which files change

  /** Refused, or rejected whatever the user is shown. */
  ghost predicate Stopped(h: Harness, call: ToolCall) {
    h.refuse(call).Some? || (Asked(h, call) && forall before :: h.confirm(call, before).Some?)
  }

  /** An action changes a file only when it is a tool's write, within the part the tool may touch. */
  lemma ActTouches(h: Harness, calls: seq<ToolCall>, s: System, i: nat, q: string)
    requires |s.phases| == |s.results| == |calls| && i < |calls| && Live(s.phases[i])
    ensures var s' := Act(h, calls, s, i); var touched := s.phases[i].Loaded? && In(q, Touches(h.resolve, calls[i]));
            && (!touched ==> Cell(s'.files, q) == Cell(s.files, q))
            && (touched ==> Cell(s'.files, q) == Cell(h.after(calls[i], s.phases[i].seen), q))
  {
    hide KindOf, FilePath;
  }

  /** A path that only stopped calls may touch is as it was, at every point of every schedule. */
  lemma {:induction false} SparedPath(h: Harness, calls: seq<ToolCall>, plan: Plan, s: System, steps: seq<Step>,
                                      seen: set<Files>, q: string)
    requires AllOk(h, calls, s, seen) && Exec(h, calls, plan, s, steps).Some?
    requires forall i | 0 <= i < |calls| && In(q, Touches(h.resolve, calls[i])) :: Stopped(h, calls[i])
    ensures Cell(Exec(h, calls, plan, s, steps).value.files, q) == Cell(s.files, q)
    decreases |steps|
  {
    if steps != [] {
      var t := steps[0];
      StepKeepsOk(h, calls, plan, s, t, seen);
      StepSpares(h, calls, plan, s, t, seen, q);
      hide AllOk, Take, Enabled, Stopped;
      SparedPath(h, calls, plan, Take(h, calls, plan, s, t), steps[1..], seen + {Take(h, calls, plan, s, t).files}, q);
    }
  }

  lemma StepSpares(h: Harness, calls: seq<ToolCall>, plan: Plan, s: System, t: Step, seen: set<Files>, q: string)
    requires AllOk(h, calls, s, seen) && Shaped(calls, plan, s) && Enabled(h, calls, plan, s, t)
    requires forall i | 0 <= i < |calls| && In(q, Touches(h.resolve, calls[i])) :: Stopped(h, calls[i])
    ensures Cell(Take(h, calls, plan, s, t).files, q) == Cell(s.files, q)
  {
    hide Act, Touches;
    if t.Advance? {
      assert PhaseOk(h, calls[t.i], s.phases[t.i], seen);
      ActTouches(h, calls, s, t.i, q);
    }
  }

  /**
   A finished dispatch leaves every path as it was that only refused calls, and writes rejected
   in any case, may touch.
   */
  lemma RejectedLeaveNoTrace(h: Harness, calls: seq<ToolCall>, plan: Plan, files: Files, steps: seq<Step>, s: System,
                             q: string)
    requires Exec(h, calls, plan, Start(calls, files), steps) == Some(s)
    requires forall i | 0 <= i < |calls| && In(q, Touches(h.resolve, calls[i])) :: Stopped(h, calls[i])
    ensures Cell(s.files, q) == Cell(files, q)
  {
    SparedPath(h, calls, plan, Start(calls, files), steps, {files}, q);
  }

  /** Of all calls of the batch this one alone may touch the path. */
  predicate OnlyToucher(h: Harness, calls: seq<ToolCall>, i: nat, q: string)
    requires i < |calls|
  {
    && In(q, Touches(h.resolve, calls[i]))
    && forall j | 0 <= j < |calls| && j != i :: !In(q, Touches(h.resolve, calls[j]))
  }

  /** The call ran on a view it had, said c, and left this in the file. */
  ghost predicate Wrote(h: Harness, call: ToolCall, seen: set<Files>, c: string, q: string, now: Option<string>) {
    && LetThrough(h, call, seen)
    && exists view :: Viewed(h, call, seen, view) && c == h.output(call, view) && now == Cell(h.after(call, view), q)
  }

  /**
   The file of a path that only this call may touch: as it was until the tool wrote, or for
   good if the call was turned down.
   */
  ghost predicate FileOk(h: Harness, call: ToolCall, p: Phase, seen: set<Files>, q: string, was: Option<string>,
                         now: Option<string>) {
    if p.Returned? || p.Stored? || p.Gone?
    then (TurnedDown(h, call, seen, p.content) && now == was) || Wrote(h, call, seen, p.content, q, now)
    else now == was
  }

  lemma FileOkMore(h: Harness, call: ToolCall, p: Phase, seen: set<Files>, more: set<Files>, q: string,
                   was: Option<string>, now: Option<string>)
    requires FileOk(h, call, p, seen, q, was, now) && seen <= more
    ensures FileOk(h, call, p, more, q, was, now)
  {
    assert forall view :: Viewed(h, call, seen, view) ==> Viewed(h, call, more, view);
    assert forall before :: Shown(h, call, seen, before) ==> Shown(h, call, more, before);
  }

  lemma StepKeepsFile(h: Harness, calls: seq<ToolCall>, plan: Plan, s: System, t: Step, seen: set<Files>, i: nat,
                      q: string, was: Option<string>)
    requires AllOk(h, calls, s, seen) && Shaped(calls, plan, s) && Enabled(h, calls, plan, s, t)
    requires i < |calls| && FileOk(h, calls[i], s.phases[i], seen, q, was, Cell(s.files, q))
    requires OnlyToucher(h, calls, i, q)
    requires s.phases[i].Pending? || t == Advance(i) || Take(h, calls, plan, s, t).phases[i] == s.phases[i]
    ensures var s' := Take(h, calls, plan, s, t);
            FileOk(h, calls[i], s'.phases[i], seen + {s'.files}, q, was, Cell(s'.files, q))
  {
    var s' := Take(h, calls, plan, s, t);
    hide Touches;
    if t == Advance(i) {
      OwnActKeepsFile(h, calls, s, seen, i, q, was);
    } else if t.Advance? {
      ActTouches(h, calls, s, t.i, q);
      ActFrame(h, calls, s, t.i);
    }
    FileOkMore(h, calls[i], s'.phases[i], seen, seen + {s'.files}, q, was, Cell(s'.files, q));
  }

  lemma OwnActKeepsFile(h: Harness, calls: seq<ToolCall>, s: System, seen: set<Files>, i: nat, q: string,
                        was: Option<string>)
    requires AllOk(h, calls, s, seen) && i < |calls| && Live(s.phases[i])
    requires FileOk(h, calls[i], s.phases[i], seen, q, was, Cell(s.files, q)) && In(q, Touches(h.resolve, calls[i]))
    ensures var s' := Act(h, calls, s, i); FileOk(h, calls[i], s'.phases[i], seen, q, was, Cell(s'.files, q))
  {
    assert PhaseOk(h, calls[i], s.phases[i], seen);
    ActTouches(h, calls, s, i, q);
    hide KindOf, FilePath, Apply, Cell;
  }

  /** Calls are entered only while pending. */
  lemma EntersPending(h: Harness, calls: seq<ToolCall>, plan: Plan, s: System, t: Step, i: nat)
    requires Inv(h, calls, plan, s) && Shaped(calls, plan, s) && Enabled(h, calls, plan, s, t) && i < |calls|
    ensures s.phases[i].Pending? || t == Advance(i) || Take(h, calls, plan, s, t).phases[i] == s.phases[i]
  {
    if t.Advance? {
      ActFrame(h, calls, s, t.i);
    }
  }

  lemma {:induction false} RunKeepsFile(h: Harness, calls: seq<ToolCall>, plan: Plan, s: System, steps: seq<Step>,
                                        seen: set<Files>, i: nat, q: string, was: Option<string>)
    requires Inv(h, calls, plan, s) && AllOk(h, calls, s, seen) && Exec(h, calls, plan, s, steps).Some?
    requires i < |calls| && FileOk(h, calls[i], s.phases[i], seen, q, was, Cell(s.files, q))
    requires OnlyToucher(h, calls, i, q)
    ensures var end := Exec(h, calls, plan, s, steps).value;
            && |end.phases| == |calls|
            && FileOk(h, calls[i], end.phases[i], seen + FilesSeen(h, calls, plan, s, steps), q, was,
                Cell(end.files, q))
    decreases |steps|
  {
    if steps == [] {
      assert seen + {s.files} == seen;
    } else {
      var t, s' := steps[0], Take(h, calls, plan, s, steps[0]);
      assert s.files in seen;
      hide AllOk, Take, Enabled, FileOk, Touches, Inv, FilesSeen, OnlyToucher, Cell;
      SeenStep(h, calls, plan, s, steps, seen);
      EntersPending(h, calls, plan, s, t, i);
      StepKeepsInv(h, calls, plan, s, t);
      StepKeepsOk(h, calls, plan, s, t, seen);
      StepKeepsFile(h, calls, plan, s, t, seen, i, q, was);
      RunKeepsFile(h, calls, plan, s', steps[1..], seen + {s'.files}, i, q, was);
    }
  }

  /**
   A path that one call of the batch alone may touch, after any finished schedule: unchanged
   if the call was turned down, and otherwise as its tool left it on the view its answer is for.
   */
  lemma OnlyWriterDecides(h: Harness, calls: seq<ToolCall>, plan: Plan, files: Files, steps: seq<Step>, s: System,
                          i: nat, q: string)
    requires Partitions(calls, |calls|, plan) && i < |calls|
    requires Exec(h, calls, plan, Start(calls, files), steps) == Some(s) && Done(plan, s)
    requires OnlyToucher(h, calls, i, q)
    ensures |s.results| == |calls| && s.results[i].Some?
    ensures var seen, c := FilesSeen(h, calls, plan, Start(calls, files), steps), s.results[i].value;
            || (TurnedDown(h, calls[i], seen, c) && Cell(s.files, q) == Cell(files, q))
            || Wrote(h, calls[i], seen, c, q, Cell(s.files, q))
  {
    hide Exec, Partitions, Inv, TurnedDown, Wrote, FilesSeen, Touches, Cell;
    PartitionOk(calls, plan);
    StartInv(h, calls, plan, files);
    ScheduleKeepsInv(h, calls, plan, Start(calls, files), steps);
    RunKeepsFile(h, calls, plan, Start(calls, files), steps, {files}, i, q, Cell(files, q));
    ResultOf(h, calls, plan, s, i);
    var seen := FilesSeen(h, calls, plan, Start(calls, files), steps);
    assert {files} + seen == seen by { StartSeen(h, calls, plan, Start(calls, files), steps); }
  }
}
