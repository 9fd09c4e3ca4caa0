/**
 The transcript a run hands back (internal/agent/loop.go, `RunLoop`): the caller's messages
 untouched, then tool calls each answered at once by one tool message per call, in order
 and under the same ids, unless a response mixed malformed calls with good ones.
 */
module TranscriptLaws {
  import opened Backend
  import opened Options
  import opened RunHistory
  import opened RunLaws
  import opened Collections

  /** Reading a transcript: the calls still open, and the answers so far. */
  datatype Scan = Bad | Good(open: seq<ToolCall>, answers: seq<Dispatched>)

  function ScanOne(s: Scan, m: Message): Scan {
    match s
    case Bad => Bad
    case Good(calls, answers) =>
      if calls == [] then (if m.role == "tool" then Bad else Good(m.toolCalls, answers))
      else if m.role == "tool" && m.toolName == calls[0].name && m.toolCallID == calls[0].id then
        Good(calls[1..], answers + [Dispatched(calls[0], m.content)])
      else Bad
  }

  function ScanFrom(s: Scan, messages: seq<Message>): Scan {
    if messages == [] then s else ScanOne(ScanFrom(s, messages[..|messages| - 1]), messages[|messages| - 1])
  }

  const NOTHING_OPEN := Good([], [])

  /** Every assistant message with tool calls is followed at once by exactly its answers. */
  predicate WellPaired(messages: seq<Message>) {
    var s := ScanFrom(NOTHING_OPEN, messages);
    s.Good? && s.open == []
  }

  /** A response that carried both malformed and well-formed tool calls. */
  predicate Mixed(e: Event) { e.Turn? && e.malformed > 0 && e.calls != [] }

  predicate NoMixedTurn(h: History) { forall i | 0 <= i < |h| :: !Mixed(h[i]) }

  /** Every tool answer of the run, in order. */
  function AllResults(h: History): seq<Dispatched> {
    if h == [] then [] else
    match Last(h)
    case Work(results) => AllResults(Front(h)) + results
    case AutoWait(r) => AllResults(Front(h)) + [r]
    case _ => AllResults(Front(h))
  }

  // ---------------------------------------------------------------- scanning piece by piece

  lemma {:induction false} ScanConcat(s: Scan, a: seq<Message>, b: seq<Message>)
    ensures ScanFrom(s, a + b) == ScanFrom(ScanFrom(s, a), b)
    decreases |b|
  {
    if b == [] {
      assert a + b == a;
    } else {
      var n := |b| - 1;
      assert (a + b)[..|a + b| - 1] == a + b[..n];
      ScanConcat(s, a, b[..n]);
    }
  }

  lemma ScanSingle(s: Scan, m: Message)
    ensures ScanFrom(s, [m]) == ScanOne(s, m)
  {
    assert [m][..0] == [];
    assert ScanFrom(s, []) == s;
  }

  lemma {:induction false} ScanBad(messages: seq<Message>)
    ensures ScanFrom(Bad, messages) == Bad
  {
    if messages != [] {
      ScanBad(messages[..|messages| - 1]);
    }
  }

  predicate AnswersFor(rs: seq<Dispatched>, calls: seq<ToolCall>) {
    |rs| <= |calls| && forall k | 0 <= k < |rs| :: rs[k].call == calls[k]
  }

  /** A batch's tool messages answer its calls one by one. */
  lemma {:induction false} ScanAnswers(calls: seq<ToolCall>, before: seq<Dispatched>, rs: seq<Dispatched>)
    requires AnswersFor(rs, calls)
    ensures ScanFrom(Good(calls, before), ToolMessages(rs)) == Good(calls[|rs|..], before + rs)
    decreases |rs|
  {
    if rs == [] {
      assert before + [] == before;
    } else {
      var n := |rs| - 1;
      ScanAnswers(calls, before, rs[..n]);
      ScanConcat(Good(calls, before), ToolMessages(rs[..n]), [ToolMessage(rs[n])]);
      ScanSingle(Good(calls[n..], before + rs[..n]), ToolMessage(rs[n]));
      assert calls[n..][0] == calls[n] == rs[n].call && calls[n..][1..] == calls[n + 1..];
      assert Dispatched(rs[n].call, rs[n].content) == rs[n];
      assert before + rs[..n] + [rs[n]] == before + rs by {
        assert rs == rs[..n] + [rs[n]];
      }
    }
  }

  // ---------------------------------------------------------------- the scan of a run

  function OpenCalls(h: History): seq<ToolCall> { if h != [] && Last(h).Turn? then Last(h).calls else [] }

  /** Where the scan stands after a history. */
  ghost predicate ScanFits(h: History) {
    var s := ScanFrom(NOTHING_OPEN, Rendered(h));
    && (NoMixedTurn(h) ==> s == Good(OpenCalls(h), AllResults(h)))
    && (!NoMixedTurn(h) ==> s == Bad || (s.Good? && s.open != [] && Mixed(Last(h))))
  }

  lemma {:induction false} ScanOfRun(w: World, cfg: Config, h: History)
    requires Follows(w, cfg, h)
    ensures ScanFits(h)
    decreases |h|
  {
    hide NextMove, Follows, ScanFits, Admits;
    if h == [] {
      assert ScanFits([]) by { ScanStart(); }
    } else {
      FollowsFront(w, cfg, h);
      ScanOfRun(w, cfg, Front(h));
      ScanFitsStep(w, cfg, Front(h), Last(h));
      assert Front(h) + [Last(h)] == h;
    }
  }

  lemma ScanStart()
    ensures ScanFits([])
  {
  }

  lemma ScanFitsStep(w: World, cfg: Config, h: History, e: Event)
    requires ScanFits(h) && Admits(w, cfg, h, e)
    ensures ScanFits(h + [e])
  {
    hide RetryText, NoMixedTurn, AllResults, ScanOne, Delegated, Waited, AutoWaited, SpeechOnly, TurnCount,
        MalformedRun, Dispatches, Nudges;
    var s := ScanFrom(NOTHING_OPEN, Rendered(h));
    assert Front(h + [e]) == h && Last(h + [e]) == e;
    ScanConcat(NOTHING_OPEN, Rendered(h), Render(e));
    MixedStep(h, e);
    if s == Bad {
      ScanBad(Render(e));
    } else if !NoMixedTurn(h) {
      assert e.Retry?;
      ScanWrong(s, RetryText(e.malformed));
    } else {
      ScanEvent(w, cfg, h, e);
    }
  }

  lemma MixedStep(h: History, e: Event)
    ensures NoMixedTurn(h + [e]) <==> NoMixedTurn(h) && !Mixed(e)
  {
    assert forall i | 0 <= i < |h| :: (h + [e])[i] == h[i];
    assert (h + [e])[|h|] == e;
  }

  lemma ScanEvent(w: World, cfg: Config, h: History, e: Event)
    requires NoMixedTurn(h) && Admits(w, cfg, h, e)
    ensures ScanFrom(Good(OpenCalls(h), AllResults(h)), Render(e)) == Good(OpenCalls(h + [e]), AllResults(h + [e]))
  {
    hide RetryText, ScanFrom, ScanOne, ToolMessages, Delegated, Waited, AutoWaited, SpeechOnly, TurnCount,
        MalformedRun, Dispatches, Nudges;
    assert Front(h + [e]) == h && Last(h + [e]) == e;
    var answers := AllResults(h);
    match e
    case Work(rs) =>
      ScanAnswers(OpenCalls(h), answers, rs);
    case AutoWait(r) =>
      ScanBarrier(answers, r);
    case Broken =>
      ScanNothing(Good(OpenCalls(h), answers));
    case Blank =>
      ScanNothing(Good(OpenCalls(h), answers));
    case _ =>
      ScanPlain(answers, Render(e)[0]);
  }

  lemma ScanWrong(s: Scan, text: string)
    requires s.Good? && s.open != []
    ensures ScanFrom(s, [User(text)]) == Bad
  {
    ScanSingle(s, User(text));
  }

  lemma ScanNothing(s: Scan)
    ensures ScanFrom(s, []) == s
  {
  }

  lemma ScanPlain(answers: seq<Dispatched>, m: Message)
    requires m.role == "assistant" || m.role == "user"
    ensures ScanFrom(Good([], answers), [m]) == Good(m.toolCalls, answers)
  {
    ScanSingle(Good([], answers), m);
  }

  lemma ScanBarrier(answers: seq<Dispatched>, r: Dispatched)
    ensures ScanFrom(Good([], answers), Render(AutoWait(r))) == Good([], answers + [r])
  {
    var first := Message("assistant", "", [r.call], "", "");
    assert Render(AutoWait(r)) == [first] + [ToolMessage(r)];
    ScanConcat(Good([], answers), [first], [ToolMessage(r)]);
    ScanPlain(answers, first);
    ScanSingle(Good([r.call], answers), ToolMessage(r));
  }

  // ---------------------------------------------------------------- the transcript handed back

  /** The three forms of the final transcript. */
  ghost predicate EndsWith(cfg: Config, h: History, messages: seq<Message>) {
    || messages == Transcript(cfg, h)
    || ((h == [] || Last(h).Work? || Last(h).AutoWait?) && exists x :: messages == Transcript(cfg, h) + [Say(x)])
    || (h != [] && Last(h).Turn? && Last(h).calls == [] && exists x :: messages == Resaid(Transcript(cfg, h), x))
  }

  lemma FinalForms(w: World, cfg: Config, h: History)
    requires NextMove(w, cfg, h).Stop? && NextMove(w, cfg, h).verdict.messages.Some?
    ensures EndsWith(cfg, h, NextMove(w, cfg, h).verdict.messages.value)
  {
    hide TurnCount, Dispatches, Nudges, MalformedRun, Delegated, Waited, AutoWaited, Collected, Worked, WorkOutput,
         BeforeWait, FinalContent, Ask, LastDeny, LastAnswer, DirectText, ResultsOf, Resaid, ThreadsFinished,
         SpeechOnly, CanAutoWait, MaxTurns, Replied, Spoken, Transcript;
    TranscriptOfNothing(cfg);
  }

  lemma TranscriptOfNothing(cfg: Config)
    ensures Transcript(cfg, []) == cfg.messages
  {
    assert cfg.messages + [] == cfg.messages;
  }

  /** What the final transcript adds to the caller's messages. */
  lemma Added(cfg: Config, h: History, messages: seq<Message>) returns (added: seq<Message>)
    requires EndsWith(cfg, h, messages)
    ensures messages == cfg.messages + added
    ensures || added == Rendered(h)
            || ((h == [] || Last(h).Work? || Last(h).AutoWait?) && exists x :: added == Rendered(h) + [Say(x)])
            || (h != [] && Last(h).Turn? && Last(h).calls == [] && exists x :: added == Rendered(Front(h)) + [Say(x)])
  {
    if messages == Transcript(cfg, h) {
      added := Rendered(h);
    } else if (h == [] || Last(h).Work? || Last(h).AutoWait?) && exists x :: messages == Transcript(cfg, h) + [Say(x)] {
      var x :| messages == Transcript(cfg, h) + [Say(x)];
      added := Rendered(h) + [Say(x)];
      Associative(cfg.messages, Rendered(h), [Say(x)]);
    } else {
      var x :| messages == Resaid(Transcript(cfg, h), x);
      var was := Say(Last(h).said);
      added := Rendered(Front(h)) + [Say(x)];
      assert Rendered(h) == Rendered(Front(h)) + [was];
      Associative(cfg.messages, Rendered(Front(h)), [was]);
      Associative(cfg.messages, Rendered(Front(h)), [Say(x)]);
      var t := Transcript(cfg, h);
      assert t == cfg.messages + Rendered(Front(h)) + [was];
      assert t[..|t| - 1] == cfg.messages + Rendered(Front(h)) && t[|t| - 1] == was;
    }
  }

  /**
   Whenever a run hands a transcript back: the caller's messages are an unchanged prefix,
   and the rest is well paired exactly when no response mixed malformed calls with good
   ones; then the answers in it are those of every dispatched call, in order.
   */
  lemma {:induction false} TranscriptShape(w: World, cfg: Config, h: History, messages: seq<Message>)
    requires Follows(w, cfg, h)
    requires NextMove(w, cfg, h).Stop? && NextMove(w, cfg, h).verdict.messages == Some(messages)
    ensures cfg.messages <= messages
    ensures WellPaired(messages[|cfg.messages|..]) <==> NoMixedTurn(h)
    ensures NoMixedTurn(h) ==> ScanFrom(NOTHING_OPEN, messages[|cfg.messages|..]) == Good([], AllResults(h))
  {
    hide NextMove, Follows, Admits, EndsWith, Rendered, AllResults, NoMixedTurn;
    FinalForms(w, cfg, h);
    var added := Added(cfg, h, messages);
    assert messages[|cfg.messages|..] == added;
    ScanOfRun(w, cfg, h);
    NothingLeftOpen(w, cfg, h);
    if added != Rendered(h) {
      if h != [] && Last(h).Turn? {
        ScanLastWords(w, cfg, h, added);
      } else {
        var x :| added == Rendered(h) + [Say(x)];
        ScanConcat(NOTHING_OPEN, Rendered(h), [Say(x)]);
        ScanSingle(ScanFrom(NOTHING_OPEN, Rendered(h)), Say(x));
      }
    }
  }

  /** A run never stops between a well-formed batch and its answers. */
  lemma NothingLeftOpen(w: World, cfg: Config, h: History)
    requires NextMove(w, cfg, h).Stop?
    ensures NoMixedTurn(h) ==> OpenCalls(h) == []
  {
    hide TurnCount, Dispatches, Nudges, MalformedRun, Delegated, Waited, AutoWaited, Collected, Worked, BeforeWait,
        FinalContent;
    if h != [] && Last(h).Turn? {
      assert AfterTurn(w, cfg, h).Stop?;
      assert !Mixed(Last(h)) || !NoMixedTurn(h);
    }
  }

  /** Changing the words of a last message without calls changes nothing in the scan. */
  lemma ScanLastWords(w: World, cfg: Config, h: History, added: seq<Message>)
    requires Follows(w, cfg, h) && h != [] && Last(h).Turn? && Last(h).calls == []
    requires exists x :: added == Rendered(Front(h)) + [Say(x)]
    ensures ScanFrom(NOTHING_OPEN, added) == ScanFrom(NOTHING_OPEN, Rendered(h))
  {
    hide NextMove, Follows;
    var x :| added == Rendered(Front(h)) + [Say(x)];
    var s := ScanFrom(NOTHING_OPEN, Rendered(Front(h)));
    ScanConcat(NOTHING_OPEN, Rendered(Front(h)), [Say(x)]);
    ScanConcat(NOTHING_OPEN, Rendered(Front(h)), [Say(Last(h).said)]);
    ScanSingle(s, Say(x));
    ScanSingle(s, Say(Last(h).said));
  }

  /** The last dispatch ran into a done context. */
  predicate CutShort(w: World, h: History) {
    h != [] && (Last(h).Work? || Last(h).AutoWait?) && Dispatches(h) > 0 && w.cancels(Dispatches(h) - 1)
  }

  /** The last dispatch settles what to say: a wait with an answer, or a wall line unless the user asked for Sam. */
  predicate Settles(w: World, cfg: Config, h: History) {
    && h != []
    && match Last(h)
       case Work(results) =>
         var deny := LastDeny(w, results);
         || LastAnswer(w, results).Some?
         || (deny.Some? && deny.value != "" && !w.askedSam(Ask(w, Transcript(cfg, h))))
       case AutoWait(r) => ThreadsFinished(r.content) && w.hasAnswer(r.content)
       case _ => false
  }

  /** The last words are spoken: a well-formed turn, a speech-only turn, a direct answer, or an early answer. */
  predicate Spoke(h: History) {
    h == [] || (Last(h).Turn? && Last(h).malformed == 0) || Last(h).Speech? || Last(h).Direct?
  }

  /** What a verdict says about the run that led to it. */
  lemma {:induction false} VerdictTellsWhy(w: World, cfg: Config, h: History, v: Verdict)
    requires Follows(w, cfg, h) && NextMove(w, cfg, h) == Stop(v)
    ensures v.turnCount == TurnCount(h) <= MaxTurns(cfg)
    ensures v.failed <==> v.reason in {ErrorStop, ParseErrorLimit, Cancelled}
    ensures v.messages.None? <==> h != [] && Last(h).Broken?
    ensures v.reason == ErrorStop <==> h != [] && (Last(h).Broken? || Last(h).Blank?)
    ensures v.reason == Cancelled <==> CutShort(w, h)
    ensures v.reason == Stopped <==> Spoke(h) || (Settles(w, cfg, h) && !CutShort(w, h))
    ensures v.reason == OutOfTurns <==>
              && h != [] && AtTop(h) && TurnCount(h) == (if cfg.maxTurns > 0 then cfg.maxTurns else 50)
              && !CutShort(w, h) && !Settles(w, cfg, h)
    ensures v.reason == ParseErrorLimit <==> ThreeMalformed(h)
  {
    hide Follows, Nudges, MalformedRun, Delegated, Waited, AutoWaited, Collected, Worked, WorkOutput, ThreeMalformed,
         BeforeWait, FinalContent, Transcript, Ask, LastDeny, LastAnswer, SpeechText, DirectText, ResultsOf, Resaid,
         ThreadsFinished;
    ThirdStrike(w, cfg, h);
    RunIsBounded(w, cfg, h);
  }
}
