/**
 The agent loop (internal/agent/loop.go, `RunLoop`) with its flags and counters, proved to
 make exactly the moves that RunHistory reads off the past.
 */
module AgentLoop {
  import opened Backend
  import opened Options
  import opened RunHistory
  import opened Collections
  import RunAnswers
  import StreamFilters

  /** The loop's local variables other than the turn and the messages. */
  datatype Flags = Flags(
    delegated: bool, waitedForThreads: bool, autoWaited: bool, toolsRan: bool,
    specialistResult: bool, workDone: bool, denied: bool,
    parseFailures: nat, nudges: nat, dispatches: nat,
    finalContent: string, contentBeforeAutoWait: string, lastWorkSpeech: string)

  const FRESH := Flags(false, false, false, false, false, false, false, 0, 0, 0, "", "", "")

  /** The flags say of the past what RunHistory's questions say of it. */
  ghost predicate Tracks(w: World, h: History, f: Flags) {
    && f.delegated == Delegated(h) && f.waitedForThreads == Waited(h) && f.autoWaited == AutoWaited(h)
    && f.dispatches == Dispatches(h) && f.toolsRan == (Dispatches(h) > 0) && (f.denied ==> f.toolsRan)
    && f.specialistResult == Collected(h) && f.workDone == Worked(w, h)
    && f.parseFailures == MalformedRun(h) && f.nudges == Nudges(h)
    && f.finalContent == FinalContent(h) && f.contentBeforeAutoWait == BeforeWait(h)
    && f.lastWorkSpeech == WorkOutput(w, h)
  }

  /** A history so far, with the loop's state in step. */
  ghost predicate InStep(w: World, cfg: Config, h: History, messages: seq<Message>, f: Flags) {
    Follows(w, cfg, h) && messages == Transcript(cfg, h) && Tracks(w, h, f)
  }

  lemma Extend(w: World, cfg: Config, h: History, e: Event)
    requires Follows(w, cfg, h) && NextMove(w, cfg, h) == Emit(e)
    ensures Follows(w, cfg, h + [e])
  {
    var more := h + [e];
    forall i | 0 <= i < |more|
      ensures MadeMove(w, cfg, more, i)
    {
      assert more[..i] == if i < |h| then h[..i] else h;
      assert i < |h| ==> MadeMove(w, cfg, h, i);
    }
  }

  lemma TranscriptGrows(cfg: Config, h: History, e: Event)
    ensures Transcript(cfg, h + [e]) == Transcript(cfg, h) + Render(e)
  {
    assert Front(h + [e]) == h;
    hide Render;
    Associative(cfg.messages, Rendered(h), Render(e));
  }

  /** How each event moves the flags. */
  function Moved(w: World, f: Flags, e: Event): Flags {
    match e
    case Turn(said, _, malformed) =>
      f.(finalContent := said, parseFailures := if malformed > 0 then f.parseFailures + 1 else 0)
    case Retry(_) => f
    case Work(rs) =>
      f.(delegated := f.delegated || LastDelegation(rs).Some?,
         waitedForThreads := f.waitedForThreads || LastWait(rs).Some?,
         specialistResult := f.specialistResult || LastCollected(rs).Some?,
         workDone := f.workDone || LastWork(w, rs).Some?,
         lastWorkSpeech := if LastWork(w, rs).Some? then LastWork(w, rs).value else f.lastWorkSpeech,
         toolsRan := true, denied := f.denied || w.denies(f.dispatches),
         dispatches := f.dispatches + 1, parseFailures := 0)
    case AutoWait(r) =>
      f.(autoWaited := true, toolsRan := true, denied := f.denied || w.denies(f.dispatches),
         contentBeforeAutoWait := f.finalContent, specialistResult := f.specialistResult || ThreadsFinished(r.content),
         dispatches := f.dispatches + 1, parseFailures := 0)
    case Nudge =>
      f.(nudges := f.nudges + 1, parseFailures := 0,
         finalContent := if f.autoWaited && f.finalContent == "" then f.contentBeforeAutoWait else f.finalContent)
    case _ => f
  }

  lemma TracksMove(w: World, h: History, f: Flags, e: Event)
    requires Tracks(w, h, f) && !e.Speech? && !e.Direct? && !e.Broken? && !e.Blank?
    ensures Tracks(w, h + [e], Moved(w, f, e))
  {
    hide LastDelegation, LastWait, LastCollected, LastWork, ThreadsFinished, Dispatches, Nudges, MalformedRun,
        TurnCount,
         Delegated, Waited, AutoWaited, Collected, Worked, WorkOutput, BeforeWait, FinalContent;
    CountsMove(h, e);
    AnswersMove(w, h, e);
    WordsMove(w, h, e);
  }

  /** One move made: history, transcript and flags stay in step. */
  lemma StepInStep(w: World, cfg: Config, h: History, messages: seq<Message>, f: Flags, e: Event)
    requires InStep(w, cfg, h, messages, f) && NextMove(w, cfg, h) == Emit(e)
    requires !e.Speech? && !e.Direct? && !e.Broken? && !e.Blank?
    ensures InStep(w, cfg, h + [e], messages + Render(e), Moved(w, f, e))
    ensures TurnCount(h + [e]) == TurnCount(h) + if e.Turn? then 1 else 0
  {
    hide Follows, Tracks, Transcript, NextMove, TurnCount, Moved;
    Extend(w, cfg, h, e);
    TranscriptGrows(cfg, h, e);
    TracksMove(w, h, f, e);
    CountsMove(h, e);
  }

  /** A history that has come to its verdict. */
  ghost predicate Halted(w: World, cfg: Config, h: History, v: Verdict) {
    Follows(w, cfg, h) && NextMove(w, cfg, h) == Stop(v)
  }

  /** A history at the top of the loop. */
  ghost predicate Ready(w: World, cfg: Config, h: History, messages: seq<Message>, f: Flags) {
    InStep(w, cfg, h, messages, f) && NextMove(w, cfg, h) == NextTurn(w, cfg, h)
  }

  function LastVerdict(h: History, turn: nat, messages: seq<Message>, final: string, e: Event): Verdict {
    match e
    case Speech(said) => Verdict(Stopped, said, turn + 1, Some(messages + [Say(said)]), false)
    case Direct(said) => Verdict(Stopped, said, turn, Some(messages + [Say(said)]), false)
    case Broken => Verdict(ErrorStop, final, turn + 1, None, true)
    case _ => Verdict(ErrorStop, final, turn + 1, Some(messages), true)
  }

  lemma AtLast(w: World, cfg: Config, h: History)
    requires h != [] && (Last(h).Speech? || Last(h).Direct? || Last(h).Broken? || Last(h).Blank?)
    ensures NextMove(w, cfg, h) ==
            if Last(h).Speech? || Last(h).Direct? then End(cfg, h, Stopped, Last(h).said)
            else if Last(h).Broken? then Stop(Verdict(ErrorStop, FinalContent(h), TurnCount(h), None, true))
            else End(cfg, h, ErrorStop, FinalContent(h))
  {
  }

  /** The four events after which the run is over. */
  lemma LastStep(w: World, cfg: Config, h: History, e: Event)
    requires Follows(w, cfg, h) && NextMove(w, cfg, h) == Emit(e)
    requires e.Speech? || e.Direct? || e.Broken? || e.Blank?
    ensures Halted(w, cfg, h + [e], LastVerdict(h, TurnCount(h), Transcript(cfg, h), FinalContent(h), e))
  {
    hide Follows, NextMove, Transcript, TurnCount, FinalContent, BeforeWait, WorkOutput, AutoWaited, Dispatches,
        Nudges, MalformedRun;
    Extend(w, cfg, h, e);
    TranscriptGrows(cfg, h, e);
    CountsMove(h, e);
    WordsMove(w, h, e);
    AtLast(w, cfg, h + [e]);
    assert Transcript(cfg, h) + [] == Transcript(cfg, h);
  }

  // ---------------------------------------------------------------- one batch of tool answers

  datatype Batch = Batch(flags: Flags, wallDeny: string, waitAnswer: string, messages: seq<Message>)

  lemma OneMoreResult(w: World, rs: seq<Dispatched>, r: Dispatched)
    ensures LastDelegation(rs + [r]) == if Delegates(r) then Some(r.content) else LastDelegation(rs)
    ensures LastWait(rs + [r]) == if Waits(r) then Some(r.content) else LastWait(rs)
    ensures LastCollected(rs + [r]) == if Collects(r) then Some(r.content) else LastCollected(rs)
    ensures LastAnswer(w, rs + [r]) == if Answers(w, r) then Some(r.content) else LastAnswer(w, rs)
    ensures LastDeny(w, rs + [r]) == if Denies(w, r) then Some(r.content) else LastDeny(w, rs)
    ensures LastWork(w, rs + [r]) == if DoesWork(w, r) then Some(r.content) else LastWork(w, rs)
    ensures ToolMessages(rs + [r]) == ToolMessages(rs) + [ToolMessage(r)]
  {
    assert (rs + [r])[..|rs|] == rs;
  }

  function OrEmpty(o: Option<string>): string { if o.Some? then o.value else "" }

  /** What a batch of answers comes to: the last answer of each kind. */
  function ReadSoFar(w: World, f: Flags, rs: seq<Dispatched>, messages: seq<Message>): Batch {
    Batch(f.(delegated := f.delegated || LastDelegation(rs).Some?,
             waitedForThreads := f.waitedForThreads || LastWait(rs).Some?,
             specialistResult := f.specialistResult || LastCollected(rs).Some?,
             workDone := f.workDone || LastWork(w, rs).Some?,
             lastWorkSpeech := if LastWork(w, rs).Some? then LastWork(w, rs).value else f.lastWorkSpeech),
          OrEmpty(LastDeny(w, rs)), OrEmpty(LastAnswer(w, rs)), messages + ToolMessages(rs))
  }

  lemma NoResults(w: World, f: Flags, messages: seq<Message>)
    ensures ReadSoFar(w, f, [], messages) == Batch(f, "", "", messages)
  {
    assert messages + [] == messages;
  }

  lemma ReadMore(w: World, f: Flags, rs: seq<Dispatched>, messages: seq<Message>, r: Dispatched)
    ensures
      var b := ReadSoFar(w, f, rs, messages);
      ReadSoFar(w, f, rs + [r], messages) ==
      Batch(b.flags.(delegated := b.flags.delegated || Delegates(r),
                     waitedForThreads := b.flags.waitedForThreads || Waits(r),
                     specialistResult := b.flags.specialistResult || Collects(r),
                     workDone := b.flags.workDone || DoesWork(w, r),
                     lastWorkSpeech := if DoesWork(w, r) then r.content else b.flags.lastWorkSpeech),
            if Denies(w, r) then r.content else b.wallDeny,
            if Answers(w, r) then r.content else b.waitAnswer,
            b.messages + [ToolMessage(r)])
  {
    hide LastDelegation, LastWait, LastCollected, LastAnswer, LastDeny, LastWork, ToolMessages;
    OneMoreResult(w, rs, r);
    Associative(messages, ToolMessages(rs), [ToolMessage(r)]);
  }

  /** A batch read with the flags of its dispatch moves the state as its event does. */
  lemma BatchIsMove(w: World, f: Flags, results: seq<Dispatched>, messages: seq<Message>)
    ensures
      var b := ReadSoFar(w, f.(toolsRan := true), results, messages);
      && b.flags.(denied := f.denied || w.denies(f.dispatches), dispatches := f.dispatches + 1, parseFailures := 0)
          == Moved(w, f, Work(results))
      && b.messages == messages + Render(Work(results))
      && b.wallDeny == OrEmpty(LastDeny(w, results)) && b.waitAnswer == OrEmpty(LastAnswer(w, results))
  {
    hide LastDelegation, LastWait, LastCollected, LastAnswer, LastDeny, LastWork, ToolMessages;
  }

  /** The result loop after a dispatch. */
  method ReadResults(w: World, f: Flags, results: seq<Dispatched>, messages: seq<Message>) returns (b: Batch)
    requires f.toolsRan
    ensures b == ReadSoFar(w, f, results, messages)
  {
    hide ReadSoFar, KindOf, IsError, ThreadsFinished, ToolMessage;
    b := Batch(f, "", "", messages);
    ghost var seen: seq<Dispatched> := [];
    NoResults(w, f, messages);
    for i := 0 to |results|
      invariant seen == results[..i]
      invariant b == ReadSoFar(w, f, seen, messages)
    {
      var r := results[i];
      var content := r.content;
      ReadMore(w, f, seen, messages, r);
      match KindOf(r.call.name) {
        case Delegate =>
          if !IsError(content) {
            b := b.(flags := b.flags.(delegated := true));
          } else if w.isWallDeny(content) {
            b := b.(wallDeny := content);
          }
        case Consult =>
          if w.isWallDeny(content) {
            b := b.(wallDeny := content);
          }
        case Wait =>
          b := b.(flags := b.flags.(waitedForThreads := true));
          if ThreadsFinished(content) {
            b := b.(flags := b.flags.(specialistResult := true));
            if w.hasAnswer(content) {
              b := b.(waitAnswer := content);
            }
          }
        case Terminal =>
          if !IsError(content) && w.trim(content) != "" {
            b := b.(flags := b.flags.(workDone := true, lastWorkSpeech := content));
          }
        case Other =>
      }
      b := b.(messages := b.messages + [ToolMessage(r)]);
      assert results[..i + 1] == seen + [r];
      seen := seen + [r];
    }
    assert results[..|results|] == results;
  }

  // ---------------------------------------------------------------- the branches of a turn

  lemma AtStart(w: World, cfg: Config)
    ensures
      var early := w.imageStop(cfg.messages, cfg.schemas);
      if early != "" then Halted(w, cfg, [], Verdict(Stopped, early, 0, Some(cfg.messages + [Say(early)]), false))
      else Ready(w, cfg, [], cfg.messages, FRESH) && TurnCount([]) == 0
  {
    assert cfg.messages + [] == cfg.messages;
  }

  lemma AtTurn(w: World, cfg: Config, h: History)
    requires h != [] && Last(h).Turn?
    ensures NextMove(w, cfg, h) == AfterTurn(w, cfg, h)
    ensures FinalContent(h) == Last(h).said
  {
  }

  lemma AtMalformedTurn(w: World, cfg: Config, h: History)
    requires h != [] && Last(h).Turn? && Last(h).malformed > 0
    ensures NextMove(w, cfg, h) == if MalformedRun(h) >= 3
                                   then Stop(Verdict(ParseErrorLimit, Last(h).said, TurnCount(h),
                                                     Some(Transcript(cfg, h)), true))
                                   else Emit(Retry(Last(h).malformed))
  {
  }

  lemma AtRetry(w: World, cfg: Config, h: History, f: Flags, malformed: nat)
    ensures Moved(w, f, Retry(malformed)) == f
    ensures NextMove(w, cfg, h + [Retry(malformed)]) == NextTurn(w, cfg, h + [Retry(malformed)])
  {
  }

  lemma AtNudge(w: World, cfg: Config, h: History)
    ensures NextMove(w, cfg, h + [Nudge]) == NextTurn(w, cfg, h + [Nudge])
  {
  }

  lemma AtWork(w: World, cfg: Config, h: History, results: seq<Dispatched>)
    ensures Dispatches(h + [Work(results)]) == Dispatches(h) + 1
    ensures NextMove(w, cfg, h + [Work(results)]) == AfterWork(w, cfg, h + [Work(results)], results)
  {
    assert Front(h + [Work(results)]) == h;
  }

  lemma AtAutoWait(w: World, cfg: Config, h: History, r: Dispatched)
    ensures Dispatches(h + [AutoWait(r)]) == Dispatches(h) + 1
    ensures NextMove(w, cfg, h + [AutoWait(r)]) == AfterAutoWait(w, cfg, h + [AutoWait(r)], r.content)
  {
    assert Front(h + [AutoWait(r)]) == h;
  }

  lemma {:induction false} AnswerIsNotEmpty(w: World, rs: seq<Dispatched>)
    ensures LastAnswer(w, rs).Some? ==> LastAnswer(w, rs).value != ""
  {
    if rs != [] {
      AnswerIsNotEmpty(w, rs[..|rs| - 1]);
      if Answers(w, rs[|rs| - 1]) {
        assert ThreadsFinished(rs[|rs| - 1].content);
      }
    }
  }

  lemma AtHint(w: World, cfg: Config, h: History, f: Flags, hint: string)
    ensures Moved(w, f, Hint(hint)) == f
    ensures NextMove(w, cfg, h + [Hint(hint)]) == Emit(Spoken(w, cfg, h + [Hint(hint)]))
  {
  }

  method LastHumanUserText(w: World, messages: seq<Message>) returns (text: string)
    ensures text == Ask(w, messages) && RunAnswers.Asks(w, messages, text)
  {
    RunAnswers.AskIs(w, messages);
    var i := |messages|;
    assert messages[..i] == messages;
    while i > 0
      invariant 0 <= i <= |messages| && Ask(w, messages) == Ask(w, messages[..i])
    {
      i := i - 1;
      assert messages[..i + 1][..i] == messages[..i];
      if messages[i].role == "user" {
        text := w.trim(messages[i].content);
        if text != "" && !("[system]" <= text) {
          return;
        }
      }
    }
    text := "";
  }

  /** The speech-only turn: hint, one buffered completion, and out. */
  method SpeechTurn(w: World, cfg: Config, turn: nat, h0: History, messages0: seq<Message>, f: Flags)
    returns (v: Verdict, h: History)
    requires Ready(w, cfg, h0, messages0, f) && turn == TurnCount(h0) < MaxTurns(cfg) && SpeechOnly(w, h0)
    ensures h0 <= h && Halted(w, cfg, h, v)
  {
    hide Follows, Transcript, TurnCount, Dispatches, Nudges, MalformedRun, Delegated, Waited, AutoWaited, Collected,
         Worked, WorkOutput, BeforeWait, FinalContent, Ask, NextMove, KindOf, IsError, StreamFilters.Held,
         StreamFilters.OpensWithBrace, StreamFilters.Flat, Moved;
    var hint := if f.workDone && !f.specialistResult then WORK_HINT else SPECIALIST_HINT;
    StepInStep(w, cfg, h0, messages0, f, Hint(hint));
    var messages := messages0 + [User(hint)];
    h := h0 + [Hint(hint)];
    AtHint(w, cfg, h0, f, hint);
    var c := w.complete(turn, messages, cfg.schemas);
    var cut, raw, _ := StreamFilters.FeedCutter(c.stream);
    if !cut && c.failed {
      LastStep(w, cfg, h, Broken);
      return Verdict(ErrorStop, f.finalContent, turn + 1, None, true), h + [Broken];
    }
    if !cut && c.response.None? {
      LastStep(w, cfg, h, Blank);
      return Verdict(ErrorStop, f.finalContent, turn + 1, Some(messages), true), h + [Blank];
    }
    var ask := LastHumanUserText(w, messages);
    var content := w.afterTools(if cut then raw else c.response.value.content, ask);
    if content == "" {
      content := f.finalContent;
      if content == "" {
        content := f.contentBeforeAutoWait;
      }
      if content == "" {
        content := f.lastWorkSpeech;
      }
    }
    content := w.teammate(messages, cfg.schemas, content);
    LastStep(w, cfg, h, Speech(content));
    return Verdict(Stopped, content, turn + 1, Some(messages + [Say(content)]), false), h + [Speech(content)];
  }

  /** How a branch of the loop body ends: back to the top, or out. */
  datatype Exit =
    | Again(h: History, messages: seq<Message>, flags: Flags)
    | Out(h: History, verdict: Verdict)

  ghost predicate ExitOk(w: World, cfg: Config, h: History, x: Exit) {
    && h <= x.h
    && match x
       case Again(h', messages, f) => Ready(w, cfg, h', messages, f) && TurnCount(h') == TurnCount(h)
       case Out(h', v) => Halted(w, cfg, h', v)
  }

  /** stopTurnPersist: end without another completion. */
  method StopTurnPersist(w: World, cfg: Config, turn: nat, h: History, messages: seq<Message>, speech: string,
      blob: string)
    returns (v: Verdict)
    requires turn == TurnCount(h) && messages == Transcript(cfg, h) && speech == FinalContent(h)
    ensures Stop(v) == Persist(w, cfg, h, blob)
  {
    var ask := LastHumanUserText(w, messages);
    var final := w.persist(speech, blob, ask);
    if final == "" {
      final := w.trim(speech);
    }
    v := Verdict(Stopped, final, turn, Some(if final != "" then messages + [Say(final)] else messages), false);
  }

  /** wallDenyAnswerDirectly: one more completion, without delegation, whose request is not kept. */
  method WallDenyAnswerDirectly(w: World, cfg: Config, turn: nat, h: History, messages: seq<Message>, ask: string)
    returns (v: Verdict, said: string)
    requires turn == TurnCount(h) && messages == Transcript(cfg, h) && ask == Ask(w, messages)
    ensures said == DirectText(w, cfg, h) && v == Verdict(Stopped, said, turn, Some(messages + [Say(said)]), false)
  {
    var noDelegate: seq<string> := [];
    for i := 0 to |cfg.schemas|
      invariant noDelegate == WithoutDelegation(cfg.schemas[..i])
    {
      assert cfg.schemas[..i + 1][..i] == cfg.schemas[..i];
      if KindOf(cfg.schemas[i]) != Delegate && KindOf(cfg.schemas[i]) != Consult {
        noDelegate := noDelegate + [cfg.schemas[i]];
      }
    }
    assert cfg.schemas[..|cfg.schemas|] == cfg.schemas;
    said := "";
    var c := w.complete(turn, messages + [User(DIRECT_TEXT)], noDelegate);
    if !c.failed && c.response.Some? {
      var content := w.trim(c.response.value.content);
      if content != "" && c.response.value.toolCalls == [] && !w.isWallDeny(content) {
        said := content;
      }
    }
    if said == "" {
      said := "Couldn't hand that off — " + w.trim(ask) + " needs a teammate I don't have here.";
    }
    v := Verdict(Stopped, said, turn, Some(messages + [Say(said)]), false);
  }

  /** A turn with malformed calls: asked again twice, given up the third time in a row. */
  method MalformedTurn(w: World, cfg: Config, turn: nat, h: History, messages: seq<Message>, f: Flags, said: string,
      malformed: nat)
    returns (x: Exit)
    requires InStep(w, cfg, h, messages, f) && turn == TurnCount(h) && malformed > 0
    requires h != [] && Last(h).Turn? && Last(h).malformed == malformed && Last(h).said == said
    ensures ExitOk(w, cfg, h, x)
  {
    hide Follows, Transcript, TurnCount, Dispatches, Nudges, MalformedRun, Delegated, Waited, AutoWaited, Collected,
         Worked, WorkOutput, BeforeWait, FinalContent, Ask, NextMove, NextTurn, Moved, RetryText, SpeechOnly, MaxTurns;
    AtMalformedTurn(w, cfg, h);
    if f.parseFailures >= 3 {
      return Out(h, Verdict(ParseErrorLimit, said, turn, Some(messages), true));
    }
    StepInStep(w, cfg, h, messages, f, Retry(malformed));
    AtRetry(w, cfg, h, f, malformed);
    return Again(h + [Retry(malformed)], messages + [User(RetryText(malformed))], f);
  }

  /** A well-formed turn without tool calls: the barrier, a nudge, or the end. */
  method ToollessTurn(w: World, cfg: Config, turn: nat, h: History, messages: seq<Message>, f: Flags, said: string)
    returns (x: Exit)
    requires InStep(w, cfg, h, messages, f) && turn == TurnCount(h) && h != [] && Last(h) == Turn(said, [], 0)
    ensures ExitOk(w, cfg, h, x)
  {
    hide Follows, Transcript, TurnCount, Dispatches, Nudges, MalformedRun, Delegated, Waited, AutoWaited, Collected,
         Worked, WorkOutput, BeforeWait, FinalContent, Ask, NextMove, NextTurn, Persist, ThreadsFinished, KindOf,
         IsError;
    AtTurn(w, cfg, h);
    if f.delegated && !f.waitedForThreads && !f.autoWaited && CanAutoWait(cfg) {
      var r := Dispatched(WAIT_CALL, w.tool(f.dispatches, 0));
      StepInStep(w, cfg, h, messages, f, AutoWait(r));
      AtAutoWait(w, cfg, h, r);
      var messages', f', h' := messages + Render(AutoWait(r)), Moved(w, f, AutoWait(r)), h + [AutoWait(r)];
      if w.cancels(f.dispatches) {
        return Out(h', Verdict(Cancelled, f'.finalContent, turn, Some(messages'), true));
      }
      if ThreadsFinished(r.content) && w.hasAnswer(r.content) {
        var v := StopTurnPersist(w, cfg, turn, h', messages', f'.finalContent, r.content);
        return Out(h', v);
      }
      return Again(h', messages', f');
    }
    var final := f.finalContent;
    if f.autoWaited && final == "" {
      final := f.contentBeforeAutoWait;
    }
    if f.toolsRan && cfg.schemas != [] && f.nudges < cfg.maxNudges && w.unfinished(final) {
      StepInStep(w, cfg, h, messages, f, Nudge);
      AtNudge(w, cfg, h);
      return Again(h + [Nudge], messages + [User(NUDGE_TEXT)], Moved(w, f, Nudge));
    }
    var speech := w.teammate(messages, cfg.schemas, final);
    var spoken := messages;
    var n := |messages|;
    if speech != final && n > 0 && messages[n - 1].role == "assistant" {
      spoken := messages[..n - 1] + [messages[n - 1].(content := speech)];
    }
    return Out(h, Verdict(Stopped, speech, turn, Some(spoken), false));
  }

  /** A well-formed turn with tool calls: dispatch, read the answers, and go on unless they end the run. */
  method WorkTurn(w: World, cfg: Config, turn: nat, h0: History, messages0: seq<Message>, f0: Flags, said: string,
      calls: seq<ToolCall>)
    returns (x: Exit)
    requires InStep(w, cfg, h0, messages0, f0) && turn == TurnCount(h0) && calls != []
    requires h0 != [] && Last(h0) == Turn(said, calls, 0)
    ensures ExitOk(w, cfg, h0, x)
  {
    hide Follows, Transcript, TurnCount, Dispatches, Nudges, MalformedRun, Delegated, Waited, AutoWaited, Collected,
         Worked, WorkOutput, BeforeWait, FinalContent, Ask, NextMove, NextTurn, Persist, DirectText,
         LastAnswer, LastDeny, ResultsOf, ReadSoFar, Moved, Render;
    AtTurn(w, cfg, h0);
    var d := f0.dispatches;
    var results := ResultsOf(w, d, calls);
    var b := ReadResults(w, f0.(toolsRan := true), results, messages0);
    StepInStep(w, cfg, h0, messages0, f0, Work(results));
    AtWork(w, cfg, h0, results);
    AnswerIsNotEmpty(w, results);
    BatchIsMove(w, f0, results, messages0);
    var h, messages := h0 + [Work(results)], b.messages;
    var f := b.flags.(denied := f0.denied || w.denies(d), dispatches := d + 1, parseFailures := 0);
    if w.cancels(d) {
      return Out(h, Verdict(Cancelled, f.finalContent, turn, Some(messages), true));
    }
    var ask := LastHumanUserText(w, messages);
    if b.wallDeny != "" && !w.askedSam(ask) {
      if w.mentionsDenied(ask, b.wallDeny) {
        var v := StopTurnPersist(w, cfg, turn, h, messages, f.finalContent, b.wallDeny);
        return Out(h, v);
      }
      var v, direct := WallDenyAnswerDirectly(w, cfg, turn, h, messages, ask);
      LastStep(w, cfg, h, Direct(direct));
      return Out(h + [Direct(direct)], v);
    }
    if b.waitAnswer != "" {
      var v := StopTurnPersist(w, cfg, turn, h, messages, f.finalContent, b.waitAnswer);
      return Out(h, v);
    }
    return Again(h, messages, f);
  }

  method RunLoop(w: World, cfg: Config) returns (v: Verdict, h: History)
    ensures Halted(w, cfg, h, v)
  {
    hide Follows, Transcript, TurnCount, Dispatches, Nudges, MalformedRun, Delegated, Waited, AutoWaited, Collected,
         Worked, WorkOutput, BeforeWait, FinalContent, Ask, NextMove, AfterTurn, Spoken, Moved;
    var messages := cfg.messages;
    var early := w.imageStop(messages, cfg.schemas);
    AtStart(w, cfg);
    if early != "" {
      return Verdict(Stopped, early, 0, Some(messages + [Say(early)]), false), [];
    }
    h := [];
    var f := FRESH;
    var turn := 0;
    while turn < MaxTurns(cfg)
      invariant Ready(w, cfg, h, messages, f) && turn == TurnCount(h) <= MaxTurns(cfg)
      decreases MaxTurns(cfg) - turn
    {
      if f.specialistResult || f.workDone {
        v, h := SpeechTurn(w, cfg, turn, h, messages, f);
        return;
      }
      var c := w.complete(turn, messages, cfg.schemas);
      if c.failed {
        LastStep(w, cfg, h, Broken);
        return Verdict(ErrorStop, f.finalContent, turn + 1, None, true), h + [Broken];
      }
      if c.response.None? {
        LastStep(w, cfg, h, Blank);
        return Verdict(ErrorStop, f.finalContent, turn + 1, Some(messages), true), h + [Blank];
      }
      var (content, calls) := w.promote(c.response.value, cfg.schemas);
      if f.denied || f.toolsRan {
        var ask := LastHumanUserText(w, messages);
        content := w.afterTools(content, ask);
      }
      var malformed := c.response.value.parseErrors;
      var e := Turn(content, calls, malformed);
      StepInStep(w, cfg, h, messages, f, e);
      h, messages, f, turn := h + [e], messages + [Message("assistant", content, calls, "", "")], Moved(w, f, e),
          turn + 1;
      var x: Exit;
      if malformed > 0 {
        x := MalformedTurn(w, cfg, turn, h, messages, f, content, malformed);
      } else if calls == [] {
        x := ToollessTurn(w, cfg, turn, h, messages, f, content);
      } else {
        x := WorkTurn(w, cfg, turn, h, messages, f, content, calls);
      }
      if x.Out? {
        return x.verdict, x.h;
      }
      h, messages, f := x.h, x.messages, x.flags;
    }
    return Verdict(OutOfTurns, f.finalContent, turn, Some(messages), false), h;
  }
}
