/**
 What every run of the agent loop keeps (internal/agent/loop.go, `RunLoop`), against any
 backend, tools and user: bounds, the third malformed turn, the end after finished work,
 faithful dispatch, and the shape of the transcript handed back.
 */
module RunLaws {
  import opened RunHistory

  // ---------------------------------------------------------------- what may follow what

  predicate AtTop(h: History) { h == [] || Last(h).Retry? || Last(h).Work? || Last(h).AutoWait? || Last(h).Nudge? }

  predicate EndsIn(h: History, malformed: bool, calls: bool) {
    && h != [] && Last(h).Turn? && (Last(h).malformed > 0) == malformed
    && (calls ==> Last(h).calls != []) && (!malformed && !calls ==> Last(h).calls == [])
  }

  /** The protocol: when each event may come. */
  ghost predicate Admits(w: World, cfg: Config, h: History, e: Event) {
    match e
    case Turn(_, _, _) => AtTop(h) && TurnCount(h) < MaxTurns(cfg) && !SpeechOnly(w, h)
    case Hint(_) => AtTop(h) && TurnCount(h) < MaxTurns(cfg) && SpeechOnly(w, h)
    case Speech(_) => h != [] && Last(h).Hint?
    case Broken => (AtTop(h) && TurnCount(h) < MaxTurns(cfg) && !SpeechOnly(w, h)) || (h != [] && Last(h).Hint?)
    case Blank => (AtTop(h) && TurnCount(h) < MaxTurns(cfg) && !SpeechOnly(w, h)) || (h != [] && Last(h).Hint?)
    case Retry(_) => EndsIn(h, true, false) && MalformedRun(h) < 3
    case Work(rs) => EndsIn(h, false, true) && rs == ResultsOf(w, Dispatches(h), Last(h).calls)
    case AutoWait(r) => EndsIn(h, false, false) && Delegated(h) && !Waited(h) && !AutoWaited(h) && CanAutoWait(cfg)
        && r.call == WAIT_CALL
    case Nudge => EndsIn(h, false, false) && Dispatches(h) > 0 && Nudges(h) < cfg.maxNudges
    case Direct(_) => h != [] && Last(h).Work?
  }

  lemma TopIsAdmitted(w: World, cfg: Config, h: History)
    requires AtTop(h)
    ensures var m := NextTurn(w, cfg, h); m.Emit? ==> Admits(w, cfg, h, m.event)
  {
    hide TurnCount, FinalContent, Transcript, Ask, Collected, Worked;
  }

  lemma TurnIsAdmitted(w: World, cfg: Config, h: History)
    requires h != [] && Last(h).Turn?
    ensures var m := AfterTurn(w, cfg, h); m.Emit? ==> Admits(w, cfg, h, m.event)
  {
    hide TurnCount, Dispatches, Nudges, MalformedRun, Delegated, Waited, AutoWaited, BeforeWait, Transcript,
        ResultsOf, Resaid;
  }

  lemma {:induction false} MovesAreAdmitted(w: World, cfg: Config, h: History)
    ensures var m := NextMove(w, cfg, h); m.Emit? ==> Admits(w, cfg, h, m.event)
  {
    hide TurnCount, Dispatches, Nudges, MalformedRun, Delegated, Waited, AutoWaited, Collected, Worked, WorkOutput,
         SpeechOnly, BeforeWait, FinalContent, Transcript, Ask, LastDeny, LastAnswer, SpeechText, DirectText,
         ThreadsFinished, NextTurn, AfterTurn;
    if AtTop(h) {
      TopIsAdmitted(w, cfg, h);
    } else if Last(h).Turn? {
      TurnIsAdmitted(w, cfg, h);
    }
  }

  lemma FollowsFront(w: World, cfg: Config, h: History)
    requires Follows(w, cfg, h) && h != []
    ensures Follows(w, cfg, Front(h)) && NextMove(w, cfg, Front(h)) == Emit(Last(h))
    ensures Admits(w, cfg, Front(h), Last(h))
  {
    var f := Front(h);
    assert h[..|h| - 1] == f;
    assert MadeMove(w, cfg, h, |h| - 1);
    forall i | 0 <= i < |f|
      ensures MadeMove(w, cfg, f, i)
    {
      assert f[..i] == h[..i] && MadeMove(w, cfg, h, i);
    }
    MovesAreAdmitted(w, cfg, f);
  }

  lemma {:induction false} FollowsPrefix(w: World, cfg: Config, h: History, n: nat)
    requires Follows(w, cfg, h) && n <= |h|
    ensures Follows(w, cfg, h[..n])
    ensures n < |h| ==> NextMove(w, cfg, h[..n]) == Emit(h[n]) && Admits(w, cfg, h[..n], h[n])
  {
    assert n < |h| ==> MadeMove(w, cfg, h, n);
    forall i | 0 <= i < n
      ensures MadeMove(w, cfg, h[..n], i)
    {
      assert h[..n][..i] == h[..i] && MadeMove(w, cfg, h, i);
    }
    MovesAreAdmitted(w, cfg, h[..n]);
  }

  // ---------------------------------------------------------------- bounds

  function AutoWaits(h: History): nat {
    if h == [] then 0 else AutoWaits(Front(h)) + if Last(h).AutoWait? then 1 else 0
  }

  ghost predicate Bounded(cfg: Config, h: History) {
    && TurnCount(h) + (if h != [] && Last(h).Hint? then 1 else 0) <= MaxTurns(cfg)
    && Completions(h) == TurnCount(h) + (if h != [] && Last(h).Direct? then 1 else 0)
    && AutoWaits(h) == (if AutoWaited(h) then 1 else 0)
    && (Nudges(h) == 0 || Nudges(h) <= cfg.maxNudges)
    && MalformedRun(h) + (if h != [] && Last(h).Retry? then 1 else 0) <= 3
    && |h| + (if h != [] && Last(h).Turn? then 1 else 0)
       <= 2 * TurnCount(h) + (if h != [] && (Last(h).Hint? || Last(h).Direct?) then 1 else 0)
  }

  /**
   Bounded turns, one completion each and at most one more, one barrier, few nudges, no third
   retry, a bounded run.
   */
  lemma {:induction false} RunIsBounded(w: World, cfg: Config, h: History)
    requires Follows(w, cfg, h)
    ensures Bounded(cfg, h)
    decreases |h|
  {
    hide NextMove, Bounded, Admits, Follows;
    if h == [] {
      NothingIsBounded(cfg);
    } else {
      FollowsFront(w, cfg, h);
      RunIsBounded(w, cfg, Front(h));
      BoundedStep(w, cfg, Front(h), Last(h));
      assert Front(h) + [Last(h)] == h;
    }
  }

  /** The bounds in plain numbers. */
  lemma {:induction false} RunBounds(w: World, cfg: Config, h: History)
    requires Follows(w, cfg, h)
    ensures TurnCount(h) <= MaxTurns(cfg) && Completions(h) <= MaxTurns(cfg) + 1
    ensures Completions(h) == MaxTurns(cfg) + 1 ==> Last(h).Direct?
    ensures AutoWaits(h) <= 1 && Nudges(h) <= (if cfg.maxNudges > 0 then cfg.maxNudges else 0)
    ensures |h| <= 2 * MaxTurns(cfg) + 1
    ensures TurnCount(h) <= if cfg.maxTurns > 0 then cfg.maxTurns else 50
  {
    hide Follows;
    RunIsBounded(w, cfg, h);
  }

  lemma NothingIsBounded(cfg: Config)
    ensures Bounded(cfg, [])
  {
  }

  lemma BoundedStep(w: World, cfg: Config, h: History, e: Event)
    requires Bounded(cfg, h) && Admits(w, cfg, h, e)
    ensures Bounded(cfg, h + [e])
  {
    hide Delegated, Waited, Collected, Worked, ResultsOf, TurnCount, Completions, Nudges, MalformedRun, Dispatches,
        AutoWaits, AutoWaited;
    CountsMove(h, e);
    AnswersMove(w, h, e);
    AutoWaitsMove(h, e);
    RunBroken(h);
  }

  lemma RunBroken(h: History)
    ensures h == [] || Last(h).Work? || Last(h).AutoWait? || Last(h).Nudge? ==> MalformedRun(h) == 0
  {
  }

  lemma AutoWaitsMove(h: History, e: Event)
    ensures AutoWaits(h + [e]) == AutoWaits(h) + if e.AutoWait? then 1 else 0
  {
    assert Front(h + [e]) == h;
  }

  // ---------------------------------------------------------------- the third malformed turn

  predicate Malformed(e: Event) { e.Turn? && e.malformed > 0 }

  /** Three malformed turns, with nothing but the retries between them. */
  predicate ThreeMalformed(h: History) {
    var n := |h|;
    n >= 5 && Malformed(h[n - 5]) && h[n - 4].Retry? && Malformed(h[n - 3]) && h[n - 2].Retry? && Malformed(h[n - 1])
  }

  predicate GaveUp(m: Move) { m.Stop? && m.verdict.reason == ParseErrorLimit }

  /** A run gives up on parse errors exactly when the three latest turns were malformed. */
  lemma {:induction false} ThirdStrike(w: World, cfg: Config, h: History)
    requires Follows(w, cfg, h)
    ensures GaveUp(NextMove(w, cfg, h)) <==> ThreeMalformed(h)
  {
    hide Follows, NextMove;
    GivesUpAtThree(w, cfg, h);
    RunIsBounded(w, cfg, h);
    if h != [] && Malformed(Last(h)) {
      StrikesBack(w, cfg, h);
      if |h| >= 3 && Malformed(h[|h| - 3]) {
        FollowsPrefix(w, cfg, h, |h| - 2);
        StrikesBack(w, cfg, h[..|h| - 2]);
        if |h| >= 5 && Malformed(h[|h| - 5]) {
          FollowsPrefix(w, cfg, h, |h| - 4);
          StrikesBack(w, cfg, h[..|h| - 4]);
        }
      }
    }
  }

  lemma GivesUpAtThree(w: World, cfg: Config, h: History)
    ensures GaveUp(NextMove(w, cfg, h)) <==> h != [] && Malformed(Last(h)) && MalformedRun(h) >= 3
  {
    hide TurnCount, Dispatches, Nudges, MalformedRun, Delegated, Waited, AutoWaited, Collected, Worked, WorkOutput,
         BeforeWait, FinalContent, Transcript, Ask, LastDeny, LastAnswer, SpeechText, DirectText, ResultsOf, Resaid,
         ThreadsFinished;
  }

  /** How far the malformed run reaches back from a malformed turn. */
  lemma StrikesBack(w: World, cfg: Config, h: History)
    requires Follows(w, cfg, h) && h != [] && Malformed(Last(h))
    ensures var n := |h|;
            if n >= 3 && Malformed(h[n - 3])
            then h[n - 2].Retry? && MalformedRun(h) == MalformedRun(h[..n - 2]) + 1
            else MalformedRun(h) == 1
  {
    hide Follows, NextMove, TurnCount, Dispatches, SpeechOnly, ResultsOf, Delegated, Waited, AutoWaited, Nudges;
    var n := |h|;
    FollowsFront(w, cfg, h);
    if n >= 2 {
      var p := Front(h);
      FollowsFront(w, cfg, p);
      assert p[n - 2] == h[n - 2];
      if n >= 3 {
        assert Front(p) == h[..n - 2] && Last(Front(p)) == h[n - 3];
        if p[n - 2].Retry? {
          FollowsFront(w, cfg, Front(p));
        }
      }
    }
  }

  // ---------------------------------------------------------------- after finished work

  /** A dispatch that collected a finished thread, or a shell command that did the job. */
  predicate Finishes(w: World, e: Event) { CollectsNow(e) || WorksNow(w, e) }

  predicate Final(e: Event) { e.Speech? || e.Direct? || e.Broken? || e.Blank? }

  lemma AfterFinished(w: World, cfg: Config, h: History, e: Event)
    requires Admits(w, cfg, h, e) && h != []
    ensures Finishes(w, Last(h)) ==> e.Hint? || e.Direct?
    ensures Last(h).Hint? ==> Final(e)
    ensures !Final(Last(h))
  {
    hide LastCollected, LastWork, ThreadsFinished, TurnCount;
  }

  lemma NextAfter(w: World, cfg: Config, h: History, i: nat)
    requires Follows(w, cfg, h) && i + 1 < |h|
    ensures Finishes(w, h[i]) ==> h[i + 1].Hint? || h[i + 1].Direct?
    ensures h[i].Hint? ==> Final(h[i + 1])
    ensures !Final(h[i])
  {
    hide Follows, NextMove, Admits, Finishes;
    FollowsPrefix(w, cfg, h, i + 1);
    AfterFinished(w, cfg, h[..i + 1], h[i + 1]);
  }

  lemma CompletionsAt(h: History, i: nat)
    requires i < |h|
    ensures Completions(h[..i + 1]) == Completions(h[..i]) + if h[i].Turn? || Final(h[i]) then 1 else 0
  {
    assert Front(h[..i + 1]) == h[..i];
  }

  /** Once the work is done, no tool runs and at most one completion is made, and the run is over within two events. */
  lemma {:induction false} FinishedMeansFinished(w: World, cfg: Config, h: History, i: nat)
    requires Follows(w, cfg, h) && i < |h| && Finishes(w, h[i])
    ensures |h| <= i + 3
    ensures forall j | i < j < |h| :: !h[j].Work? && !h[j].AutoWait? && !h[j].Turn?
    ensures Completions(h) <= Completions(h[..i]) + 1
  {
    hide Follows, Finishes, Completions;
    NotACompletion(w, h[i]);
    CompletionsAt(h, i);
    if i + 1 < |h| {
      NextAfter(w, cfg, h, i);
      CompletionsAt(h, i + 1);
      if i + 2 < |h| {
        NextAfter(w, cfg, h, i + 1);
        CompletionsAt(h, i + 2);
        if i + 3 < |h| {
          NextAfter(w, cfg, h, i + 2);
        }
      }
    }
    assert h[..|h|] == h;
  }

  lemma NotACompletion(w: World, e: Event)
    requires Finishes(w, e)
    ensures !e.Turn? && !Final(e)
  {
  }

  // ---------------------------------------------------------------- faithful dispatch

  /**
   Each well-formed batch is dispatched at once, each of its calls once and in order, and
   nothing else but the barrier is.
   */
  lemma {:induction false} DispatchIsFaithful(w: World, cfg: Config, h: History, i: nat)
    requires Follows(w, cfg, h) && i < |h|
    ensures h[i].Work? <==> i > 0 && h[i - 1].Turn? && h[i - 1].malformed == 0 && h[i - 1].calls != []
    ensures h[i].Work? ==>
              && |h[i].results| == |h[i - 1].calls|
              && forall k | 0 <= k < |h[i].results| ::
                   h[i].results[k] == Dispatched(h[i - 1].calls[k], w.tool(Dispatches(h[..i]), k))
  {
    hide Follows, NextMove, Dispatches, TurnCount, MalformedRun, Delegated, Waited, AutoWaited, Collected, Worked,
        Nudges;
    FollowsPrefix(w, cfg, h, i);
    if i > 0 {
      assert Last(h[..i]) == h[i - 1];
    }
  }

  // ---------------------------------------------------------------- one run for one world

  /** World and configuration leave no choice: two finished histories are the same. */
  lemma {:induction false} RunsAreUnique(w: World, cfg: Config, a: History, b: History)
    requires Follows(w, cfg, a) && Follows(w, cfg, b)
    requires NextMove(w, cfg, a).Stop? && NextMove(w, cfg, b).Stop?
    ensures a == b
  {
    hide NextMove;
    if |a| <= |b| {
      AgreesUpTo(w, cfg, a, b, |a|);
    } else {
      AgreesUpTo(w, cfg, b, a, |b|);
    }
  }

  lemma {:induction false} AgreesUpTo(w: World, cfg: Config, a: History, b: History, n: nat)
    requires Follows(w, cfg, a) && Follows(w, cfg, b) && n <= |a| <= |b|
    ensures a[..n] == b[..n]
    ensures n == |a| < |b| ==> NextMove(w, cfg, a) == Emit(b[n])
  {
    hide NextMove;
    if n > 0 {
      AgreesUpTo(w, cfg, a, b, n - 1);
      assert MadeMove(w, cfg, a, n - 1) && MadeMove(w, cfg, b, n - 1);
    }
    assert a[..|a|] == a;
    if n == |a| < |b| {
      assert MadeMove(w, cfg, b, n);
    }
  }
}
