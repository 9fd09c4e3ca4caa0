/**
 What a run of the agent loop finally says, and why (internal/agent/loop.go, `RunLoop`): for
 every way to a regular stop, which of the texts heard, said or reported in the run become
 the answer. Read off the events themselves, by position and by tool name.
 */
module RunAnswers {
  import opened Backend
  import opened Options
  import opened RunHistory
  import opened RunLaws
  import opened RunThreads
  import opened Collections
  import StreamFilters

  // ---------------------------------------------------------------- the last of its kind

  /** Answer k is the last of the batch with the property. */
  predicate LastIs(p: Dispatched -> bool, rs: seq<Dispatched>, k: nat) {
    k < |rs| && p(rs[k]) && forall l | k < l < |rs| :: !p(rs[l])
  }

  /** The last answer of the batch with the property reads so. */
  ghost predicate LastSays(p: Dispatched -> bool, rs: seq<Dispatched>, text: string) {
    exists k: nat :: LastIs(p, rs, k) && text == rs[k].content
  }

  lemma {:induction false} LastOfIs(p: Dispatched -> bool, rs: seq<Dispatched>)
    ensures LastOf(p, rs).Some? ==> LastSays(p, rs, LastOf(p, rs).value)
    ensures LastOf(p, rs).None? ==> forall r <- rs :: !p(r)
  {
    if rs != [] {
      var n := |rs| - 1;
      LastOfIs(p, rs[..n]);
      if p(rs[n]) {
        assert LastIs(p, rs, n);
      } else if LastOf(p, rs[..n]).Some? {
        var k: nat :| LastIs(p, rs[..n], k) && LastOf(p, rs).value == rs[..n][k].content;
        assert LastIs(p, rs, k);
      }
    }
  }

  predicate Named(r: Dispatched, names: set<string>) { r.call.name in names }

  /** A shell command that went through with some output. */
  predicate ShellWork(w: World, r: Dispatched) {
    Named(r, {"bash", "shell", "exec"}) && !("error:" <= r.content) && w.trim(r.content) != ""
  }

  predicate Reports(content: string) { !("error:" <= content) && Contains(content, "## Finished threads") }

  /** A wait that brought a specialist's answer. */
  predicate Answered(w: World, r: Dispatched) {
    Named(r, {"wait_for_threads"}) && Reports(r.content) && w.hasAnswer(r.content)
  }

  /** A refusal at the company wall; of a delegation only when it failed. */
  predicate WallLine(w: World, r: Dispatched) {
    && w.isWallDeny(r.content)
    && (Named(r, {"consult_agent"}) || (Named(r, {"delegate_to_agent"}) && "error:" <= r.content))
  }

  lemma SameKinds(w: World, rs: seq<Dispatched>)
    ensures LastWork(w, rs) == LastOf(r => ShellWork(w, r), rs)
    ensures LastAnswer(w, rs) == LastOf(r => Answered(w, r), rs)
    ensures LastDeny(w, rs) == LastOf(r => WallLine(w, r), rs)
  {
    SameLastOf(r => DoesWork(w, r), r => ShellWork(w, r), rs);
    SameLastOf(r => Answers(w, r), r => Answered(w, r), rs);
    SameLastOf(r => Denies(w, r), r => WallLine(w, r), rs);
  }

  // ---------------------------------------------------------------- the human's ask

  /** A user message that is neither blank nor the harness's own. */
  predicate FromHuman(w: World, m: Message) {
    m.role == "user" && w.trim(m.content) != "" && !("[system]" <= w.trim(m.content))
  }

  /** The ask is the last message of the human, or "" if there is none. */
  ghost predicate Asks(w: World, messages: seq<Message>, ask: string) {
    || (ask == "" && forall m <- messages :: !FromHuman(w, m))
    || (exists i | 0 <= i < |messages| ::
          && FromHuman(w, messages[i]) && ask == w.trim(messages[i].content)
          && forall j | i < j < |messages| :: !FromHuman(w, messages[j]))
  }

  lemma {:induction false} AskIs(w: World, messages: seq<Message>)
    ensures Asks(w, messages, Ask(w, messages))
  {
    if messages != [] {
      var n := |messages| - 1;
      AskIs(w, messages[..n]);
      if FromHuman(w, messages[n]) {
        assert Ask(w, messages) == w.trim(messages[n].content);
      } else {
        assert Ask(w, messages) == Ask(w, messages[..n]);
        if i :| 0 <= i < n && FromHuman(w, messages[..n][i]) && Ask(w, messages) == w.trim(messages[..n][i].content)
                && forall j | i < j < n :: !FromHuman(w, messages[..n][j]) {
          assert FromHuman(w, messages[i]) && forall j | i < j < n :: messages[j] == messages[..n][j];
        }
      }
    }
  }

  // ---------------------------------------------------------------- where words come from

  /** Before the barrier, if there was one, this was said. */
  ghost predicate BarrierWords(h: History, text: string) {
    || (text == "" && forall e <- h :: !e.AutoWait?)
    || (exists j | 0 < j < |h| :: h[j].AutoWait? && h[j - 1].Turn? && text == h[j - 1].said)
  }

  lemma AfterTurnOnly(w: World, cfg: Config, h: History)
    requires Follows(w, cfg, h) && h != [] && (Last(h).Work? || Last(h).AutoWait? || Last(h).Nudge? || Last(h).Retry?)
    ensures |h| >= 2 && h[|h| - 2].Turn? && Front(h)[|h| - 2] == h[|h| - 2] && FinalContent(Front(h)) == h[|h| - 2].said
  {
    hide Follows, NextMove, TurnCount, Dispatches, SpeechOnly, ResultsOf, Delegated, Waited, AutoWaited, Nudges,
        MalformedRun;
    FollowsFront(w, cfg, h);
  }

  lemma {:induction false} BarrierIs(w: World, cfg: Config, h: History)
    requires Follows(w, cfg, h)
    ensures BarrierWords(h, BeforeWait(h))
    ensures AutoWaited(h) <==> exists e <- h :: e.AutoWait?
    decreases |h|
  {
    hide Follows, FinalContent;
    if h != [] {
      var f := Front(h);
      FollowsFront(w, cfg, h);
      BarrierIs(w, cfg, f);
      assert h == f + [Last(h)];
      if Last(h).AutoWait? {
        AfterTurnOnly(w, cfg, h);
        var j := |h| - 1;
        assert h[j].AutoWait? && h[j - 1].Turn? && BeforeWait(h) == h[j - 1].said;
      } else if BeforeWait(h) != "" || exists e <- f :: e.AutoWait? {
        KeptBarrier(f, Last(h), BeforeWait(h));
      }
    }
  }

  lemma KeptBarrier(f: History, e: Event, text: string)
    requires BarrierWords(f, text) && !e.AutoWait?
    ensures BarrierWords(f + [e], text)
  {
    if j :| 0 < j < |f| && f[j].AutoWait? && f[j - 1].Turn? && text == f[j - 1].said {
      var h := f + [e];
      assert h[j].AutoWait? && h[j - 1].Turn? && text == h[j - 1].said;
    }
  }

  /** The last words the model said, and what was held up before the barrier if they are empty. */
  ghost predicate Words(h: History, said: string, text: string) {
    if said != "" then text == said else BarrierWords(h, text)
  }

  predicate Dispatching(e: Event) { e.Work? || e.AutoWait? }

  lemma {:induction false} DispatchesIff(h: History)
    ensures Dispatches(h) > 0 <==> exists e <- h :: Dispatching(e)
    decreases |h|
  {
    if h != [] {
      DispatchesIff(Front(h));
      assert h == Front(h) + [Last(h)];
      if e :| e in Front(h) && Dispatching(e) {
        assert e in h;
      }
      assert Last(h) in h;
    }
  }

  // ---------------------------------------------------------------- an ordinary turn

  /**
   What an ordinary completion becomes: its calls and errors as they are, its words filtered
   once any tool has run.
   */
  lemma TurnIsHeard(w: World, cfg: Config, h: History, said: string, calls: seq<ToolCall>, malformed: nat)
    requires NextMove(w, cfg, h) == Emit(Turn(said, calls, malformed))
    ensures var c := w.complete(TurnCount(h), Transcript(cfg, h), cfg.schemas);
            && !c.failed && c.response.Some? && malformed == c.response.value.parseErrors
            && var (content, promoted) := w.promote(c.response.value, cfg.schemas);
               && calls == promoted
               && if exists e <- h :: Dispatching(e)
                  then exists ask :: Asks(w, Transcript(cfg, h), ask) && said == w.afterTools(content, ask)
                  else said == content
  {
    hide TurnCount, Transcript, Ask, Asks, Dispatches, Delegated, Waited, AutoWaited, Collected, Worked, FinalContent,
         BeforeWait, LastDeny, LastAnswer, SpeechText, DirectText, ResultsOf, MalformedRun, Nudges, ThreadsFinished;
    DispatchesIff(h);
    AskIs(w, Transcript(cfg, h));
  }

  /** The barrier is due: something was delegated, nothing waited for, and the tool is there. */
  ghost predicate BarrierDue(cfg: Config, h: History) {
    && (exists i, k :: DelegatesAt(h, i, k)) && !(exists j, l :: WaitsAt(h, j, l))
    && cfg.waitRegistered && (cfg.schemas == [] || "wait_for_threads" in cfg.schemas)
  }

  /** A nudge is due: some tool ran, tools are left to call, nudges are left, and the words announce more. */
  ghost predicate NudgeDue(w: World, cfg: Config, h: History, text: string) {
    (exists e <- h :: Dispatching(e)) && cfg.schemas != [] && Nudges(h) < cfg.maxNudges && w.unfinished(text)
  }

  /** The transcript with the final words in place of the model's own, if they differ. */
  ghost predicate Restated(was: seq<Message>, text: string, final: string, now: seq<Message>) {
    if text == final then now == was
    else |now| == |was| > 0 && now[..|now| - 1] == was[..|was| - 1] && now[|now| - 1] == Say(final)
  }

  /**
   A turn without tool calls meets the barrier, or a nudge, or ends the run on its own words;
   each exactly when due.
   */
  lemma ToollessTurnDecides(w: World, cfg: Config, h: History, said: string) returns (text: string)
    requires Follows(w, cfg, h) && h != [] && Last(h) == Turn(said, [], 0)
    ensures Words(h, said, text)
    ensures var m := NextMove(w, cfg, h);
            if BarrierDue(cfg, h) then m.Emit? && m.event.AutoWait?
            else if NudgeDue(w, cfg, h, text) then m == Emit(Nudge)
            else
              && RegularStop(m) && m.verdict.finalContent == w.teammate(Transcript(cfg, h), cfg.schemas, text)
              && m.verdict.messages.Some?
              && Restated(Transcript(cfg, h), text, m.verdict.finalContent, m.verdict.messages.value)
  {
    text := OwnWords(h, said);
    DispatchesIff(h);
    DelegatedIff(h);
    WaitedIff(h);
    BarrierIs(w, cfg, h);
    ToollessTurn(w, cfg, h, said);
    hide Follows, NextMove, TurnCount, Transcript, Dispatches, Delegated, Waited, AutoWaited, BeforeWait, Nudges,
         DelegatesAt, WaitsAt, Restated;
  }

  function OwnWords(h: History, said: string): string { if AutoWaited(h) && said == "" then BeforeWait(h) else said }

  /** The same, asking the past by its names. */
  lemma ToollessTurn(w: World, cfg: Config, h: History, said: string)
    requires h != [] && Last(h) == Turn(said, [], 0)
    ensures var m, text := NextMove(w, cfg, h), OwnWords(h, said);
            if Delegated(h) && !Waited(h) && !AutoWaited(h) && CanAutoWait(cfg) then m.Emit? && m.event.AutoWait?
            else if Dispatches(h) > 0 && cfg.schemas != [] && Nudges(h) < cfg.maxNudges && w.unfinished(text)
                then m == Emit(Nudge)
            else
              && RegularStop(m) && m.verdict.finalContent == w.teammate(Transcript(cfg, h), cfg.schemas, text)
              && m.verdict.messages.Some?
              && Restated(Transcript(cfg, h), text, m.verdict.finalContent, m.verdict.messages.value)
  {
    LastMessage(cfg, h);
    hide TurnCount, Transcript, Ask, Dispatches, Delegated, Waited, AutoWaited, FinalContent, BeforeWait, Nudges,
         MalformedRun;
  }

  lemma LastMessage(cfg: Config, h: History)
    requires h != [] && Last(h).Turn? && Last(h).calls == []
    ensures Transcript(cfg, h) == Transcript(cfg, Front(h)) + [Say(Last(h).said)]
  {
    assert Rendered(h) == Rendered(Front(h)) + [Say(Last(h).said)];
  }

  // ---------------------------------------------------------------- the speech-only turn

  /** How a run comes to a hint: a dispatch that finished something, right after an ordinary turn. */
  lemma HintEnding(w: World, cfg: Config, h: History)
    requires Follows(w, cfg, h) && h != [] && Last(h).Hint?
    ensures |h| >= 3 && h[|h| - 3].Turn? && Dispatching(h[|h| - 2]) && !SpeechOnly(w, h[..|h| - 2])
    ensures Front(Front(h)) == h[..|h| - 2] && Front(h)[|h| - 2] == h[|h| - 2]
    ensures SpeechOnly(w, Front(h))
  {
    hide Follows, NextMove, TurnCount, Dispatches, ResultsOf, Delegated, Waited, AutoWaited, Nudges, MalformedRun,
         CollectsNow, WorksNow;
    FollowsFront(w, cfg, h);
    var p := Front(h);
    FollowsFront(w, cfg, p);
    var q := Front(p);
    if q != [] {
      FollowsFront(w, cfg, q);
    }
    if q != [] {
      QuietEvent(w, q);
    }
    if !Dispatching(Last(p)) {
      QuietEvent(w, p);
    }
    assert p == h[..|h| - 1] && Last(p) == h[|h| - 2];
    assert q == h[..|h| - 2] && Last(q) == h[|h| - 3];
  }

  /** Only a dispatch can finish anything. */
  lemma QuietEvent(w: World, h: History)
    requires h != [] && !Dispatching(Last(h))
    ensures SpeechOnly(w, h) == SpeechOnly(w, Front(h))
  {
  }

  /** The last shell output that counted as the work done, in the dispatch that ended the work. */
  ghost predicate WorkWords(w: World, e: Event, text: string) {
    if e.Work? && exists r <- e.results :: ShellWork(w, r) then LastSays(r => ShellWork(w, r), e.results, text)
    else text == ""
  }

  lemma {:induction false} NoWorkNoWords(w: World, h: History)
    requires !Worked(w, h)
    ensures WorkOutput(w, h) == ""
    decreases |h|
  {
    hide LastWork;
    if h != [] {
      NoWorkNoWords(w, Front(h));
    }
  }

  lemma WorkWordsAre(w: World, h: History)
    requires h != [] && !Worked(w, Front(h))
    ensures WorkWords(w, Last(h), WorkOutput(w, h))
  {
    NoWorkNoWords(w, Front(h));
    if Last(h).Work? {
      var rs := Last(h).results;
      SameKinds(w, rs);
      LastOfIs(r => ShellWork(w, r), rs);
      assert LastWork(w, rs).Some? ==> exists r <- rs :: ShellWork(w, r);
    }
  }

  /**
   What a speech-only answer rests on: what the completion said, if any of it is sayable; or
   else the words of the turn before the finishing dispatch; or else the words before the
   barrier; or else the last output of the shell work that finished.
   */
  ghost predicate SpeechWords(w: World, h: History, visible: string, text: string)
    requires |h| >= 4 && h[|h| - 4].Turn?
  {
    if visible != "" then text == visible
    else if h[|h| - 4].said != "" then text == h[|h| - 4].said
    else
      exists before ::
        BarrierWords(h, before) && if before != "" then text == before else WorkWords(w, h[|h| - 3], text)
  }

  /** What the speech-only completion said, whatever a cut stream's backend returned; None if it said nothing at all. */
  ghost function SaidBy(c: Completion): Option<string> {
    if StreamFilters.OpensWithBrace(StreamFilters.Flat(c.stream)) then Some(StreamFilters.Held(c.stream))
    else if c.failed || c.response.None? then None
    else Some(c.response.value.content)
  }

  /** The words a speech-only turn falls back on, told from the flags' meanings. */
  lemma SpeechRests(w: World, cfg: Config, h: History)
    requires Follows(w, cfg, h) && h != [] && Last(h).Speech?
    ensures var p := Front(h);
            && |h| >= 4 && h[|h| - 4].Turn? && p != [] && Last(p).Hint?
            && FinalContent(p) == h[|h| - 4].said && BarrierWords(h, BeforeWait(p))
            && WorkWords(w, h[|h| - 3], WorkOutput(w, p))
  {
    hide Follows, NextMove, BarrierWords, WorkWords, SpeechOnly, Collected, Worked, TurnCount;
    var p := Front(h);
    FollowsFront(w, cfg, h);
    HintEnding(w, cfg, p);
    BarrierIs(w, cfg, p);
    KeptBarrier(p, Last(h), BeforeWait(p));
    assert h == p + [Last(h)];
    var d := Front(p);
    FollowsFront(w, cfg, p);
    AfterTurnOnly(w, cfg, d);
    NotYetWorked(w, Front(d));
    WorkWordsAre(w, d);
    assert Last(d) == h[|h| - 3];
  }

  lemma NotYetWorked(w: World, h: History)
    requires !SpeechOnly(w, h)
    ensures !Worked(w, h)
  {
  }

  lemma EndsOnSpeech(w: World, cfg: Config, h: History)
    requires h != [] && Last(h).Speech?
    ensures NextMove(w, cfg, h)
         == Stop(Verdict(Stopped, Last(h).said, TurnCount(h), Some(Transcript(cfg, Front(h)) + [Say(Last(h).said)]),
             false))
  {
    hide TurnCount;
    assert Rendered(h) == Rendered(Front(h)) + [Say(Last(h).said)];
    Associative(cfg.messages, Rendered(Front(h)), [Say(Last(h).said)]);
  }

  /** Of the texts at hand the first that is not empty is kept. */
  lemma KeptWords(w: World, cfg: Config, h: History, ask: string) returns (text: string)
    requires |h| >= 4 && h[|h| - 4].Turn? && Last(h).Speech?
    requires var p := Front(h);
             && Last(h) == RunHistory.Spoken(w, cfg, p) && ask == Ask(w, Transcript(cfg, p))
             && FinalContent(p) == h[|h| - 4].said && BarrierWords(h, BeforeWait(p))
             && WorkWords(w, h[|h| - 3], WorkOutput(w, p))
    ensures var p := Front(h);
            var heard := SaidBy(w.complete(TurnCount(p), Transcript(cfg, p), cfg.schemas));
            && heard.Some? && SpeechWords(w, h, w.afterTools(heard.value, ask), text)
            && Last(h).said == w.teammate(Transcript(cfg, p), cfg.schemas, text)
  {
    hide TurnCount, Transcript, Ask, FinalContent, BeforeWait, WorkOutput, BarrierWords, WorkWords,
         StreamFilters.Held, StreamFilters.OpensWithBrace, StreamFilters.Flat;
    var p := Front(h);
    var heard := SaidBy(w.complete(TurnCount(p), Transcript(cfg, p), cfg.schemas)).value;
    var visible := w.afterTools(heard, ask);
    text := if visible != "" then visible
            else if FinalContent(p) != "" then FinalContent(p)
            else if BeforeWait(p) != "" then BeforeWait(p)
            else WorkOutput(w, p);
  }

  /** A run that ends on the speech-only turn: its answer, told from the completion and the events before it. */
  lemma SpeechIsTheAnswer(w: World, cfg: Config, h: History) returns (ask: string, text: string)
    requires Follows(w, cfg, h) && h != [] && Last(h).Speech?
    ensures |h| >= 4 && h[|h| - 4].Turn?
    ensures var p := Front(h);
            var heard := SaidBy(w.complete(TurnCount(p), Transcript(cfg, p), cfg.schemas));
            && Asks(w, Transcript(cfg, p), ask) && heard.Some?
            && SpeechWords(w, h, w.afterTools(heard.value, ask), text)
            && var final := w.teammate(Transcript(cfg, p), cfg.schemas, text);
               NextMove(w, cfg, h)
               == Stop(Verdict(Stopped, final, TurnCount(h), Some(Transcript(cfg, p) + [Say(final)]), false))
  {
    var p := Front(h);
    SpeechRests(w, cfg, h);
    FollowsFront(w, cfg, h);
    ask := Ask(w, Transcript(cfg, p));
    AskIs(w, Transcript(cfg, p));
    assert NextMove(w, cfg, p) == Emit(RunHistory.Spoken(w, cfg, p));
    EndsOnSpeech(w, cfg, h);
    hide *;
    text := KeptWords(w, cfg, h, ask);
  }

  // ---------------------------------------------------------------- after a dispatch

  /** The last text of its kind in a batch, if there is one. */
  ghost predicate LastIfAny(p: Dispatched -> bool, rs: seq<Dispatched>, text: Option<string>) {
    if text.Some? then LastSays(p, rs, text.value) else forall r <- rs :: !p(r)
  }

  /**
   The run ends on a report, put together with the model's words, or on those words alone, and
   adds them if there are any.
   */
  ghost predicate EndsReporting(w: World, cfg: Config, h: History, m: Move, words: string, report: string,
      ask: string) {
    && RegularStop(m)
    && var told := w.persist(words, report, ask);
       var final := if told != "" then told else w.trim(words);
       m.verdict == Verdict(Stopped, final, TurnCount(h),
                            Some(Transcript(cfg, h) + if final != "" then [Say(final)] else []), false)
  }

  /** What the one completion without delegation says, if it is sayable, and an excuse otherwise. */
  ghost predicate DirectWords(w: World, cfg: Config, h: History, ask: string, said: string) {
    var c := w.complete(TurnCount(h), Transcript(cfg, h) + [User(DIRECT_TEXT)], WithoutDelegation(cfg.schemas));
    var content := if c.failed || c.response.None? then "" else w.trim(c.response.value.content);
    if content != "" && c.response.value.toolCalls == [] && !w.isWallDeny(content) then said == content
    else said == "Couldn't hand that off — " + w.trim(ask) + " needs a teammate I don't have here."
  }

  /** Delegation and consultation are withheld, everything else stays granted, in order. */
  lemma {:induction false} DelegationWithheld(a: seq<string>, b: seq<string>, name: string)
    ensures WithoutDelegation(a + b) == WithoutDelegation(a) + WithoutDelegation(b)
    ensures WithoutDelegation([name]) == if name == "delegate_to_agent" || name == "consult_agent" then [] else [name]
    decreases |b|
  {
    if b == [] {
      assert a + b == a;
    } else {
      var n := |b| - 1;
      DelegationWithheld(a, b[..n], name);
      assert (a + b)[..|a + b| - 1] == a + b[..n];
      Associative(WithoutDelegation(a), WithoutDelegation(b[..n]), [b[n]]);
    }
    assert [name][..0] == [];
  }

  /** The batch's answers that decide. */
  lemma BatchDecides(w: World, rs: seq<Dispatched>)
    ensures LastIfAny(r => WallLine(w, r), rs, LastDeny(w, rs))
    ensures LastIfAny(r => Answered(w, r), rs, LastAnswer(w, rs))
  {
    SameKinds(w, rs);
    LastOfIs(r => WallLine(w, r), rs);
    LastOfIs(r => Answered(w, r), rs);
  }

  /**
   What a dispatch comes to: cancelled; or the last wall line, unless the human asked for Sam,
   which is told if the human named the teammate and answered directly if not; or the last
   specialist's answer; or the run goes on.
   */
  lemma DispatchDecides(w: World, cfg: Config, h: History)
    returns (ask: string, wall: Option<string>, answer: Option<string>)
    requires Follows(w, cfg, h) && h != [] && Last(h).Work?
    ensures |h| >= 2 && h[|h| - 2].Turn? && Asks(w, Transcript(cfg, h), ask)
    ensures LastIfAny(r => WallLine(w, r), Last(h).results, wall)
    ensures LastIfAny(r => Answered(w, r), Last(h).results, answer)
    ensures var m, words := NextMove(w, cfg, h), h[|h| - 2].said;
            if w.cancels(Dispatches(h) - 1) then
              m.Stop? && m.verdict.reason == Cancelled && m.verdict.finalContent == words
            else if wall.Some? && wall.value != "" && !w.askedSam(ask) then
              if w.mentionsDenied(ask, wall.value) then EndsReporting(w, cfg, h, m, words, wall.value, ask)
              else m.Emit? && m.event.Direct? && DirectWords(w, cfg, h, ask, m.event.said)
            else if answer.Some? then EndsReporting(w, cfg, h, m, words, answer.value, ask)
            else !RegularStop(m) && (m.Emit? ==> !m.event.Direct?)
  {
    AfterTurnOnly(w, cfg, h);
    BatchDecides(w, Last(h).results);
    AskIs(w, Transcript(cfg, h));
    DispatchCounts(h);
    ask, wall, answer := Ask(w, Transcript(cfg, h)), LastDeny(w, Last(h).results), LastAnswer(w, Last(h).results);
    assert FinalContent(h) == FinalContent(Front(h));
    PersistReports(w, cfg, h, OrEmpty(wall));
    PersistReports(w, cfg, h, OrEmpty(answer));
    DirectIsDirect(w, cfg, h, ask);
    TopGoesOn(w, cfg, h);
    hide Follows, LastDeny, LastAnswer, LastIfAny, Dispatches, Transcript, Ask, Asks, FinalContent, TurnCount,
        SpeechOnly;
    hide Persist, EndsReporting, DirectText, DirectWords, NextTurn;
  }

  function OrEmpty(o: Option<string>): string { if o.Some? then o.value else "" }

  lemma PersistReports(w: World, cfg: Config, h: History, report: string)
    ensures EndsReporting(w, cfg, h, Persist(w, cfg, h, report), FinalContent(h), report, Ask(w, Transcript(cfg, h)))
  {
    hide Transcript, TurnCount, FinalContent, Ask;
    assert Transcript(cfg, h) + [] == Transcript(cfg, h);
  }

  lemma DirectIsDirect(w: World, cfg: Config, h: History, ask: string)
    requires ask == Ask(w, Transcript(cfg, h))
    ensures DirectWords(w, cfg, h, ask, DirectText(w, cfg, h))
  {
    hide Transcript, TurnCount, Ask, WithoutDelegation;
  }

  /** At the top of a turn a run neither stops regularly nor answers directly. */
  lemma TopGoesOn(w: World, cfg: Config, h: History)
    ensures var m := NextTurn(w, cfg, h); !RegularStop(m) && (m.Emit? ==> !m.event.Direct?)
  {
    hide TurnCount, Transcript, FinalContent, Ask, SpeechOnly, Dispatches;
  }

  /** The same after the barrier, which has one answer. */
  lemma BarrierDecides(w: World, cfg: Config, h: History) returns (ask: string)
    requires Follows(w, cfg, h) && h != [] && Last(h).AutoWait?
    ensures |h| >= 2 && h[|h| - 2].Turn? && Asks(w, Transcript(cfg, h), ask)
    ensures var m, words, report := NextMove(w, cfg, h), h[|h| - 2].said, Last(h).result.content;
            if w.cancels(Dispatches(h) - 1) then
              m.Stop? && m.verdict.reason == Cancelled && m.verdict.finalContent == words
            else if Reports(report) && w.hasAnswer(report) then EndsReporting(w, cfg, h, m, words, report, ask)
            else !RegularStop(m) && (m.Emit? ==> !m.event.Direct?)
  {
    AfterTurnOnly(w, cfg, h);
    AskIs(w, Transcript(cfg, h));
    assert Dispatches(h) > 0;
    ask := Ask(w, Transcript(cfg, h));
    assert FinalContent(h) == FinalContent(Front(h));
    PersistReports(w, cfg, h, Last(h).result.content);
    TopGoesOn(w, cfg, h);
    hide Follows, Dispatches, Transcript, Ask, Asks, FinalContent, TurnCount, SpeechOnly, Contains;
    hide Persist, EndsReporting, NextTurn;
  }

  /** The batch brought a finished thread. */
  predicate ReportsNow(e: Event) {
    || (e.AutoWait? && Reports(e.result.content))
    || (e.Work? && exists r <- e.results :: Named(r, {"wait_for_threads"}) && Reports(r.content))
  }

  predicate ShellWorkNow(w: World, e: Event) { e.Work? && exists r <- e.results :: ShellWork(w, r) }

  lemma NowIs(w: World, e: Event)
    ensures ReportsNow(e) <==> CollectsNow(e)
    ensures ShellWorkNow(w, e) <==> WorksNow(w, e)
  {
    if e.Work? {
      var reports := r => Named(r, {"wait_for_threads"}) && Reports(r.content);
      SameLastOf(r => Collects(r), reports, e.results);
      LastOfIff(reports, e.results);
      SameKinds(w, e.results);
      LastOfIff(r => ShellWork(w, r), e.results);
    }
  }

  /**
   A run that goes on after a dispatch turns to the last words exactly if the dispatch brought
   a finished thread or did the work.
   */
  lemma DispatchFinishes(w: World, cfg: Config, h: History)
    requires Follows(w, cfg, h) && h != [] && Dispatching(Last(h)) && NextMove(w, cfg, h).Emit?
    ensures var e := NextMove(w, cfg, h).event;
            && (!e.Direct? ==> (e.Hint? <==> ReportsNow(Last(h)) || ShellWorkNow(w, Last(h))))
            && (e.Hint? ==> e.text == if ReportsNow(Last(h)) then SPECIALIST_HINT else WORK_HINT)
  {
    NowIs(w, Last(h));
    QuietUntil(w, cfg, h);
    OnAfterDispatch(w, cfg, h);
    HintOnTop(w, cfg, h);
    hide *;
  }

  /** Nothing was finished before a dispatch. */
  lemma QuietUntil(w: World, cfg: Config, h: History)
    requires Follows(w, cfg, h) && h != [] && Dispatching(Last(h))
    ensures Collected(h) <==> CollectsNow(Last(h))
    ensures Worked(w, h) <==> WorksNow(w, Last(h))
  {
    FollowsFront(w, cfg, h);
    FollowsFront(w, cfg, Front(h));
    QuietEvent(w, Front(h));
    hide Follows, NextMove, TurnCount, CollectsNow, WorksNow, Dispatches, ResultsOf, Delegated, Waited, AutoWaited,
         MalformedRun, Nudges;
  }

  lemma HintOnTop(w: World, cfg: Config, h: History)
    ensures var m := NextTurn(w, cfg, h);
            m.Emit? ==>
              && (m.event.Hint? <==> Collected(h) || Worked(w, h))
              && (m.event.Hint? ==> m.event.text == if Collected(h) then SPECIALIST_HINT else WORK_HINT)
  {
    hide TurnCount, Transcript, FinalContent, Ask, Collected, Worked, Dispatches;
  }

  lemma OnAfterDispatch(w: World, cfg: Config, h: History)
    requires h != [] && Dispatching(Last(h)) && NextMove(w, cfg, h).Emit?
    ensures !NextMove(w, cfg, h).event.Direct? ==> NextMove(w, cfg, h) == NextTurn(w, cfg, h)
  {
    assert Dispatches(h) > 0;
    hide LastDeny, LastAnswer, Dispatches, Transcript, Ask, FinalContent, TurnCount, DirectText, Persist, NextTurn;
  }

  /** The two ends without a dispatch or a turn: an early answer, and the direct one. */
  lemma OtherAnswers(w: World, cfg: Config, h: History)
    requires RegularStop(NextMove(w, cfg, h)) && (h == [] || Last(h).Direct?)
    ensures var v := NextMove(w, cfg, h).verdict;
            && v.finalContent == (if h == [] then w.imageStop(cfg.messages, cfg.schemas) else Last(h).said)
            && (h == [] ==> v.finalContent != "")
            && v.messages == Some(cfg.messages + Rendered(if h == [] then h else Front(h)) + [Say(v.finalContent)])
  {
    hide TurnCount;
    if h != [] {
      assert Rendered(h) == Rendered(Front(h)) + [Say(Last(h).said)];
      Associative(cfg.messages, Rendered(Front(h)), [Say(Last(h).said)]);
    } else {
      assert cfg.messages + [] == cfg.messages;
    }
  }

  // ---------------------------------------------------------------- stops that are not regular

  /** The latest turn's words; after an empty turn that was nudged, the words before the barrier. */
  ghost predicate LastWords(h: History, text: string) {
    (text == "" && forall e <- h :: !e.Turn?) || exists i :: LastTurnAt(h, i) && TurnWords(h, i, text)
  }

  predicate LastTurnAt(h: History, i: nat) { i < |h| && h[i].Turn? && forall j | i < j < |h| :: !h[j].Turn? }

  ghost predicate TurnWords(h: History, i: nat, text: string)
    requires i < |h| && h[i].Turn?
  {
    if h[i].said == "" && i + 1 < |h| && h[i + 1].Nudge? then BarrierWords(h[..i + 1], text) else text == h[i].said
  }

  lemma OneMoreEvent(f: History, e: Event, text: string)
    requires LastWords(f, text) && !e.Turn? && !e.Nudge?
    ensures LastWords(f + [e], text)
  {
    var h := f + [e];
    if i: nat :| LastTurnAt(f, i) && TurnWords(f, i, text) {
      assert h[i] == f[i] && h[..i + 1] == f[..i + 1];
      assert LastTurnAt(h, i) && TurnWords(h, i, text);
    }
  }

  lemma OneMoreTurn(f: History, e: Event)
    requires e.Turn?
    ensures LastWords(f + [e], e.said)
  {
    assert LastTurnAt(f + [e], |f|) && TurnWords(f + [e], |f|, e.said);
  }

  lemma OneMoreNudge(f: History, text: string)
    requires f != [] && Last(f).Turn?
    requires if Last(f).said == "" then BarrierWords(f, text) else text == Last(f).said
    ensures LastWords(f + [Nudge], text)
  {
    var h := f + [Nudge];
    assert h[..|f|] == f && LastTurnAt(h, |f| - 1) && TurnWords(h, |f| - 1, text);
  }

  lemma {:induction false} LastWordsAre(w: World, cfg: Config, h: History)
    requires Follows(w, cfg, h)
    ensures LastWords(h, FinalContent(h))
    decreases |h|
  {
    if h != [] {
      var f, e := Front(h), Last(h);
      FollowsFront(w, cfg, h);
      LastWordsAre(w, cfg, f);
      BarrierIs(w, cfg, f);
      assert h == f + [e];
      hide Follows, LastWords, BarrierWords, BeforeWait, TurnCount, SpeechOnly;
      if e.Turn? {
        OneMoreTurn(f, e);
      } else if e.Nudge? {
        assert FinalContent(f) == Last(f).said;
        OneMoreNudge(f, FinalContent(h));
      } else {
        OneMoreEvent(f, e, FinalContent(h));
      }
    }
  }

  /** A run that is cancelled, fails or runs out of turns hands back the words it had last. */
  lemma IrregularStopKeepsWords(w: World, cfg: Config, h: History)
    requires Follows(w, cfg, h) && NextMove(w, cfg, h).Stop? && !RegularStop(NextMove(w, cfg, h))
    ensures LastWords(h, NextMove(w, cfg, h).verdict.finalContent)
  {
    LastWordsAre(w, cfg, h);
    assert h != [] && Last(h).Turn? ==> FinalContent(h) == Last(h).said;
    hide Follows, LastWords, TurnCount, FinalContent, Transcript, Ask, LastDeny, LastAnswer, SpeechText, DirectText,
         Resaid, BeforeWait, Dispatches, Delegated, Waited, AutoWaited, Collected, Worked, MalformedRun, Nudges;
  }
}
