/**
 What a run of the agent loop may do next (internal/agent/loop.go, `RunLoop`), told from its
 history alone: no flags and no counters, only questions about past events. The loop
 itself, with its flags, is proved to make exactly these moves in AgentLoop.dfy; what every
 run keeps is proved here, of every history that follows the moves.
 */
module RunHistory {
  import opened Backend
  import opened Options
  import StreamFilters

  // ---------------------------------------------------------------- the world around a run

  datatype Response = Response(content: string, toolCalls: seq<ToolCall>, parseErrors: nat)

  /** One ChatCompletion: the pieces it streamed, whether it returned an error, and its response, if any. */
  datatype Completion = Completion(stream: seq<string>, failed: bool, response: Option<Response>)

  /** Everything the loop consults and does not control. */
  datatype World = World(
    complete: (nat, seq<Message>, seq<string>) -> Completion,    // n-th completion: request, granted tools
    tool: (nat, nat) -> string,                                  // d-th dispatch: answer to its k-th call
    denies: nat -> bool,                                         // d-th dispatch: a permission was denied
    cancels: nat -> bool,                                        // the context is done after the d-th dispatch
    promote: (Response, seq<string>) -> (string, seq<ToolCall>), // content that is a tool call becomes one
    afterTools: (string, string) -> string,                      // VisibleAssistantContentAfterTools
    teammate: (seq<Message>, seq<string>, string) -> string,     // applyTeammateSpeech
    persist: (string, string, string) -> string,                 // PersistStopTurn
    imageStop: (seq<Message>, seq<string>) -> string,
    hasAnswer: string -> bool,                                   // WaitHasSpecialistAnswer
    isWallDeny: string -> bool,                                  // IsCompanyWallDeny
    askedSam: string -> bool,
    mentionsDenied: (string, string) -> bool,
    unfinished: string -> bool,                                  // looksLikeUnfinishedPlan
    trim: string -> string)                                      // strings.TrimSpace

  datatype Config = Config(messages: seq<Message>, maxTurns: int, schemas: seq<string>, waitRegistered: bool,
      maxNudges: int)

  function MaxTurns(cfg: Config): nat { if cfg.maxTurns <= 0 then 50 else cfg.maxTurns }

  predicate CanAutoWait(cfg: Config) {
    cfg.waitRegistered && (cfg.schemas == [] || "wait_for_threads" in cfg.schemas)
  }

  datatype Dispatched = Dispatched(call: ToolCall, content: string)

  datatype Event =
    | Turn(said: string, calls: seq<ToolCall>, malformed: nat)   // an ordinary completion came back
    | Retry(malformed: nat)
    | Work(results: seq<Dispatched>)
    | AutoWait(result: Dispatched)
    | Nudge
    | Hint(text: string)
    | Speech(said: string)                                       // the speech-only completion
    | Direct(said: string)                                       // wallDenyAnswerDirectly's completion
    | Broken                                                     // a completion failed
    | Blank                                                      // a completion returned neither response nor error

  datatype Reason = Stopped | ErrorStop | ParseErrorLimit | Cancelled | OutOfTurns

  datatype Verdict = Verdict(reason: Reason, finalContent: string, turnCount: nat, messages: Option<seq<Message>>,
      failed: bool)

  datatype Move = Emit(event: Event) | Stop(verdict: Verdict)

  type History = seq<Event>

  function Last(h: History): Event requires h != [] { h[|h| - 1] }

  function Front(h: History): History requires h != [] { h[..|h| - 1] }

  // ---------------------------------------------------------------- messages

  function User(text: string): Message { Message("user", text, [], "", "") }

  function Say(text: string): Message { Message("assistant", text, [], "", "") }

  function ToolMessage(r: Dispatched): Message { Message("tool", r.content, [], r.call.name, r.call.id) }

  function ToolMessages(rs: seq<Dispatched>): seq<Message> {
    if rs == [] then [] else ToolMessages(rs[..|rs| - 1]) + [ToolMessage(rs[|rs| - 1])]
  }

  const WAIT_CALL := ToolCall("auto_wait_1", "wait_for_threads", map[])

  function RetryText(n: nat): string {
    "[system] " + StreamFilters.Decimal(n)
        + " tool call(s) were malformed and could not be executed. Please retry with valid JSON arguments."
  }

  const NUDGE_TEXT := "[system] Continue: execute the next step now by calling the tool — do not describe it."

  const SPECIALIST_HINT :=
    "[system] Specialists already finished. Speak to the human: say what they reported, then finish "
    + "any leftover question. No tools. No playbook. No templates."

  const WORK_HINT := "[system] The tool already ran. Tell the human the result in one short sentence. No more tools."

  const DIRECT_TEXT :=
    "[system] That teammate isn't available for this. Answer directly yourself — no delegating, no tools."

  /** What an event leaves in the transcript. */
  function Render(e: Event): seq<Message> {
    match e
    case Turn(said, calls, _) => [Message("assistant", said, calls, "", "")]
    case Retry(n) => [User(RetryText(n))]
    case Work(results) => ToolMessages(results)
    case AutoWait(r) => [Message("assistant", "", [r.call], "", ""), ToolMessage(r)]
    case Nudge => [User(NUDGE_TEXT)]
    case Hint(text) => [User(text)]
    case Speech(said) => [Say(said)]
    case Direct(said) => [Say(said)]
    case Broken => []
    case Blank => []
  }

  function Rendered(h: History): seq<Message> {
    if h == [] then [] else Rendered(Front(h)) + Render(Last(h))
  }

  function Transcript(cfg: Config, h: History): seq<Message> { cfg.messages + Rendered(h) }

  /** lastHumanUserText: the last user message that is neither blank nor the harness's own. */
  function Ask(w: World, messages: seq<Message>): string {
    if messages == [] then "" else
    var m := messages[|messages| - 1];
    var text := w.trim(m.content);
    if m.role == "user" && text != "" && !("[system]" <= text) then text else Ask(w, messages[..|messages| - 1])
  }

  // ---------------------------------------------------------------- what a tool answer means

  /** The tools whose answers steer the loop. */
  datatype Kind = Delegate | Consult | Wait | Terminal | Other

  function KindOf(name: string): Kind {
    if name == "delegate_to_agent" then Delegate
    else if name == "consult_agent" then Consult
    else if name == "wait_for_threads" then Wait
    else if name in {"bash", "shell", "exec"} then Terminal
    else Other
  }

  predicate IsError(content: string) { "error:" <= content }

  predicate Contains(s: string, sub: string) { exists i | 0 <= i <= |s| :: sub <= s[i..] }

  /** waitReturnedSpecialistResult. */
  predicate ThreadsFinished(content: string) { !IsError(content) && Contains(content, "## Finished threads") }

  predicate Delegates(r: Dispatched) { KindOf(r.call.name) == Delegate && !IsError(r.content) }

  predicate Waits(r: Dispatched) { KindOf(r.call.name) == Wait }

  predicate Collects(r: Dispatched) { Waits(r) && ThreadsFinished(r.content) }

  predicate Answers(w: World, r: Dispatched) { Collects(r) && w.hasAnswer(r.content) }

  predicate Denies(w: World, r: Dispatched) {
    && w.isWallDeny(r.content)
    && (KindOf(r.call.name) == Consult || (KindOf(r.call.name) == Delegate && IsError(r.content)))
  }

  /** A shell command that went through with some output: the job is done. */
  predicate DoesWork(w: World, r: Dispatched) {
    KindOf(r.call.name) == Terminal && !IsError(r.content) && w.trim(r.content) != ""
  }

  /** The content of the last answer of the wanted kind. */
  function LastOf(p: Dispatched -> bool, rs: seq<Dispatched>): Option<string> {
    if rs == [] then None
    else if p(rs[|rs| - 1]) then Some(rs[|rs| - 1].content)
    else LastOf(p, rs[..|rs| - 1])
  }

  function LastDelegation(rs: seq<Dispatched>): Option<string> { LastOf(r => Delegates(r), rs) }
  function LastWait(rs: seq<Dispatched>): Option<string> { LastOf(r => Waits(r), rs) }
  function LastCollected(rs: seq<Dispatched>): Option<string> { LastOf(r => Collects(r), rs) }
  function LastAnswer(w: World, rs: seq<Dispatched>): Option<string> { LastOf(r => Answers(w, r), rs) }
  function LastDeny(w: World, rs: seq<Dispatched>): Option<string> { LastOf(r => Denies(w, r), rs) }
  function LastWork(w: World, rs: seq<Dispatched>): Option<string> { LastOf(r => DoesWork(w, r), rs) }

  // ---------------------------------------------------------------- questions about the past

  function TurnCount(h: History): nat {
    if h == [] then 0
    else TurnCount(Front(h)) + if Last(h).Turn? || Last(h).Speech? || Last(h).Broken? || Last(h).Blank? then 1 else 0
  }

  function Completions(h: History): nat {
    if h == [] then 0
    else Completions(Front(h))
         + if Last(h).Turn? || Last(h).Speech? || Last(h).Direct? || Last(h).Broken? || Last(h).Blank? then 1 else 0
  }

  function Dispatches(h: History): nat {
    if h == [] then 0 else Dispatches(Front(h)) + if Last(h).Work? || Last(h).AutoWait? then 1 else 0
  }

  function Nudges(h: History): nat {
    if h == [] then 0 else Nudges(Front(h)) + if Last(h).Nudge? then 1 else 0
  }

  /** How many turns in a row, up to now, carried malformed tool calls. */
  function MalformedRun(h: History): nat {
    if h == [] then 0 else
    match Last(h)
    case Turn(_, _, malformed) => if malformed > 0 then MalformedRun(Front(h)) + 1 else 0
    case Retry(_) => MalformedRun(Front(h))
    case Hint(_) => MalformedRun(Front(h))
    case _ => 0
  }

  predicate Delegated(h: History) {
    h != [] && ((Last(h).Work? && LastDelegation(Last(h).results).Some?) || Delegated(Front(h)))
  }

  predicate Waited(h: History) {
    h != [] && ((Last(h).Work? && LastWait(Last(h).results).Some?) || Waited(Front(h)))
  }

  predicate AutoWaited(h: History) { h != [] && (Last(h).AutoWait? || AutoWaited(Front(h))) }

  predicate CollectsNow(e: Event) {
    (e.Work? && LastCollected(e.results).Some?) || (e.AutoWait? && ThreadsFinished(e.result.content))
  }

  predicate Collected(h: History) { h != [] && (CollectsNow(Last(h)) || Collected(Front(h))) }

  predicate WorksNow(w: World, e: Event) { e.Work? && LastWork(w, e.results).Some? }

  predicate Worked(w: World, h: History) { h != [] && (WorksNow(w, Last(h)) || Worked(w, Front(h))) }

  /** The last shell output that counted as the work done. */
  function WorkOutput(w: World, h: History): string {
    if h == [] then "" else if WorksNow(w, Last(h)) then LastWork(w, Last(h).results).value else WorkOutput(w, Front(h))
  }

  predicate SpeechOnly(w: World, h: History) { Collected(h) || Worked(w, h) }

  /** What the model had said when the barrier was injected. */
  function BeforeWait(h: History): string {
    if h == [] then "" else if Last(h).AutoWait? then FinalContent(Front(h)) else BeforeWait(Front(h))
  }

  /**
   The answer so far: the latest turn's words, or the words before the barrier once an empty
   turn after it was nudged.
   */
  function FinalContent(h: History): string {
    if h == [] then "" else
    match Last(h)
    case Turn(said, _, _) => said
    case Nudge =>
      if AutoWaited(Front(h)) && FinalContent(Front(h)) == "" then BeforeWait(Front(h)) else FinalContent(Front(h))
    case _ => FinalContent(Front(h))
  }

  // ---------------------------------------------------------------- one event more

  lemma CountsMove(h: History, e: Event)
    ensures Dispatches(h + [e]) == Dispatches(h) + if e.Work? || e.AutoWait? then 1 else 0
    ensures Nudges(h + [e]) == Nudges(h) + if e.Nudge? then 1 else 0
    ensures TurnCount(h + [e]) == TurnCount(h) + if e.Turn? || e.Speech? || e.Broken? || e.Blank? then 1 else 0
    ensures Completions(h + [e])
            == Completions(h) + if e.Turn? || e.Speech? || e.Direct? || e.Broken? || e.Blank? then 1 else 0
    ensures MalformedRun(h + [e]) == if e.Turn? && e.malformed > 0 then MalformedRun(h) + 1
                                     else if e.Retry? || e.Hint? then MalformedRun(h)
                                     else 0
  {
    assert Front(h + [e]) == h;
  }

  lemma AnswersMove(w: World, h: History, e: Event)
    ensures Delegated(h + [e]) <==> Delegated(h) || (e.Work? && LastDelegation(e.results).Some?)
    ensures Waited(h + [e]) <==> Waited(h) || (e.Work? && LastWait(e.results).Some?)
    ensures AutoWaited(h + [e]) <==> AutoWaited(h) || e.AutoWait?
    ensures Collected(h + [e]) <==> Collected(h) || CollectsNow(e)
    ensures Worked(w, h + [e]) <==> Worked(w, h) || WorksNow(w, e)
  {
    hide LastDelegation, LastWait, CollectsNow, WorksNow;
    assert Front(h + [e]) == h;
  }

  lemma WordsMove(w: World, h: History, e: Event)
    ensures WorkOutput(w, h + [e]) == if WorksNow(w, e) then LastWork(w, e.results).value else WorkOutput(w, h)
    ensures BeforeWait(h + [e]) == if e.AutoWait? then FinalContent(h) else BeforeWait(h)
    ensures FinalContent(h + [e]) == if e.Turn? then e.said
                                     else if e.Nudge? && AutoWaited(h) && FinalContent(h) == "" then BeforeWait(h)
                                     else FinalContent(h)
  {
    hide LastWork;
    assert Front(h + [e]) == h;
  }

  // ---------------------------------------------------------------- the next move

  ghost function NextMove(w: World, cfg: Config, h: History): Move {
    if h == [] then
      var early := w.imageStop(cfg.messages, cfg.schemas);
      if early != "" then Stop(Verdict(Stopped, early, 0, Some(cfg.messages + [Say(early)]), false))
      else NextTurn(w, cfg, h)
    else
      match Last(h)
      case Turn(_, _, _) => AfterTurn(w, cfg, h)
      case Retry(_) => NextTurn(w, cfg, h)
      case Work(results) => AfterWork(w, cfg, h, results)
      case AutoWait(r) => AfterAutoWait(w, cfg, h, r.content)
      case Nudge => NextTurn(w, cfg, h)
      case Hint(_) => Emit(Spoken(w, cfg, h))
      case Speech(said) => End(cfg, h, Stopped, said)
      case Direct(said) => End(cfg, h, Stopped, said)
      case Broken => Stop(Verdict(ErrorStop, FinalContent(h), TurnCount(h), None, true))
      case Blank => End(cfg, h, ErrorStop, FinalContent(h))
  }

  /** Stop with the whole transcript. */
  function End(cfg: Config, h: History, reason: Reason, final: string): Move {
    Stop(Verdict(reason, final, TurnCount(h), Some(Transcript(cfg, h)), reason !in {Stopped, OutOfTurns}))
  }

  /** The turn bound, then an ordinary completion, or the hint that opens the speech-only turn. */
  ghost function NextTurn(w: World, cfg: Config, h: History): Move {
    if TurnCount(h) >= MaxTurns(cfg) then End(cfg, h, OutOfTurns, FinalContent(h))
    else if SpeechOnly(w, h) then Emit(Hint(if Worked(w, h) && !Collected(h) then WORK_HINT else SPECIALIST_HINT))
    else Emit(Replied(w, cfg, h))
  }

  function Replied(w: World, cfg: Config, h: History): Event {
    var messages := Transcript(cfg, h);
    var c := w.complete(TurnCount(h), messages, cfg.schemas);
    if c.failed then Broken
    else if c.response.None? then Blank
    else
      var (content, calls) := w.promote(c.response.value, cfg.schemas);
      var said := if Dispatches(h) > 0 then w.afterTools(content, Ask(w, messages)) else content;
      Turn(said, calls, c.response.value.parseErrors)
  }

  /** A stream that opens with a brace is cut: what was held so far counts, whatever the backend returns. */
  ghost function Spoken(w: World, cfg: Config, h: History): Event {
    var messages := Transcript(cfg, h);
    var c := w.complete(TurnCount(h), messages, cfg.schemas);
    if StreamFilters.OpensWithBrace(StreamFilters.Flat(c.stream)) then
      Speech(SpeechText(w, cfg, h, StreamFilters.Held(c.stream)))
    else if c.failed then Broken
    else if c.response.None? then Blank
    else Speech(SpeechText(w, cfg, h, c.response.value.content))
  }

  function SpeechText(w: World, cfg: Config, h: History, raw: string): string {
    var messages := Transcript(cfg, h);
    var visible := w.afterTools(raw, Ask(w, messages));
    var kept :=
      if visible != "" then visible
      else if FinalContent(h) != "" then FinalContent(h)
      else if BeforeWait(h) != "" then BeforeWait(h)
      else WorkOutput(w, h);
    w.teammate(messages, cfg.schemas, kept)
  }

  ghost function AfterTurn(w: World, cfg: Config, h: History): Move
    requires h != [] && Last(h).Turn?
  {
    var Turn(said, calls, malformed) := Last(h);
    if malformed > 0 then
      if MalformedRun(h) >= 3 then End(cfg, h, ParseErrorLimit, said) else Emit(Retry(malformed))
    else if calls != [] then Emit(Work(ResultsOf(w, Dispatches(h), calls)))
    else if Delegated(h) && !Waited(h) && !AutoWaited(h) && CanAutoWait(cfg) then
      Emit(AutoWait(Dispatched(WAIT_CALL, w.tool(Dispatches(h), 0))))
    else
      var final := if AutoWaited(h) && said == "" then BeforeWait(h) else said;
      if Dispatches(h) > 0 && cfg.schemas != [] && Nudges(h) < cfg.maxNudges && w.unfinished(final) then Emit(Nudge)
      else
        var speech := w.teammate(Transcript(cfg, h), cfg.schemas, final);
        var messages := if speech != final then Resaid(Transcript(cfg, h), speech) else Transcript(cfg, h);
        Stop(Verdict(Stopped, speech, TurnCount(h), Some(messages), false))
  }

  function ResultsOf(w: World, d: nat, calls: seq<ToolCall>): seq<Dispatched> {
    seq(|calls|, k requires 0 <= k < |calls| => Dispatched(calls[k], w.tool(d, k)))
  }

  /** The last message, if the assistant's, says something else. */
  function Resaid(messages: seq<Message>, speech: string): seq<Message> {
    var n := |messages|;
    if n > 0 && messages[n - 1].role == "assistant"
    then messages[..n - 1] + [messages[n - 1].(content := speech)]
    else messages
  }

  ghost function AfterAutoWait(w: World, cfg: Config, h: History, content: string): Move
    requires Dispatches(h) > 0
  {
    if w.cancels(Dispatches(h) - 1) then End(cfg, h, Cancelled, FinalContent(h))
    else if ThreadsFinished(content) && w.hasAnswer(content) then Persist(w, cfg, h, content)
    else NextTurn(w, cfg, h)
  }

  ghost function AfterWork(w: World, cfg: Config, h: History, results: seq<Dispatched>): Move
    requires Dispatches(h) > 0
  {
    var deny, answer := LastDeny(w, results), LastAnswer(w, results);
    var ask := Ask(w, Transcript(cfg, h));
    if w.cancels(Dispatches(h) - 1) then End(cfg, h, Cancelled, FinalContent(h))
    else if deny.Some? && deny.value != "" && !w.askedSam(ask) then
      if w.mentionsDenied(ask, deny.value) then Persist(w, cfg, h, deny.value) else Emit(Direct(DirectText(w, cfg, h)))
    else if answer.Some? then Persist(w, cfg, h, answer.value)
    else NextTurn(w, cfg, h)
  }

  /** stopTurnPersist. */
  function Persist(w: World, cfg: Config, h: History, blob: string): Move {
    var messages := Transcript(cfg, h);
    var persisted := w.persist(FinalContent(h), blob, Ask(w, messages));
    var final := if persisted != "" then persisted else w.trim(FinalContent(h));
    Stop(Verdict(Stopped, final, TurnCount(h), Some(if final != "" then messages + [Say(final)] else messages), false))
  }

  function WithoutDelegation(schemas: seq<string>): seq<string> {
    if schemas == [] then [] else
    var rest := WithoutDelegation(schemas[..|schemas| - 1]);
    var name := schemas[|schemas| - 1];
    if KindOf(name) == Delegate || KindOf(name) == Consult then rest else rest + [name]
  }

  /** wallDenyAnswerDirectly. */
  function DirectText(w: World, cfg: Config, h: History): string {
    var messages := Transcript(cfg, h);
    var c := w.complete(TurnCount(h), messages + [User(DIRECT_TEXT)], WithoutDelegation(cfg.schemas));
    var content := if !c.failed && c.response.Some? then w.trim(c.response.value.content) else "";
    if content != "" && c.response.value.toolCalls == [] && !w.isWallDeny(content) then content
    else "Couldn't hand that off — " + w.trim(Ask(w, messages)) + " needs a teammate I don't have here."
  }

  /** Every event of the history was the next move when it came. */
  ghost predicate Follows(w: World, cfg: Config, h: History) {
    forall i | 0 <= i < |h| :: MadeMove(w, cfg, h, i)
  }

  ghost predicate MadeMove(w: World, cfg: Config, h: History, i: nat)
    requires i < |h|
  {
    NextMove(w, cfg, h[..i]) == Emit(h[i])
  }
}
