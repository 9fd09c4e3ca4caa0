/**
 The swarm event bridge (internal/agent/swarm_bridge.go): per-agent token batching, drop
 warnings, and the order of what is broadcast.
 */
module SwarmBridge {
  import opened Collections

  datatype AgentStatus = Queued | Thinking | Tooling | DoneStatus | ErrorStatus | Cancelled | OtherStatus

  /** One swarm event; a payload of the wrong dynamic type is Malformed. */
  datatype Event =
    | Token(agent: string, content: string)
    | StatusChange(agent: string, name: string, status: AgentStatus)
    | CompleteEvent(agent: string, name: string)
    | ErrorEvent(agent: string, name: string, message: string)
    | ToolStart(agent: string, tool: string)
    | ToolDone(agent: string, tool: string)
    | Malformed

  /** The success and error fields, present on terminal statuses only. */
  datatype Outcome = Unset | Success | Failure(error: string)

  datatype Broadcast =
    | SwarmStart(agents: seq<(string, string)>)
    | AgentToken(agent: string, content: string)
    | AgentStatusMsg(agent: string, name: string, status: string, outcome: Outcome)
    | AgentToolStart(agent: string, tool: string)
    | AgentToolDone(agent: string, tool: string)
    | DropWarning(dropped: nat, threshold: nat)
    | SwarmComplete(cancelled: bool, dropped: nat)

  /** What the select statement came up with, and the drop counter's reading in that turn. */
  datatype Input = CtxDone(dropped: nat) | Tick(dropped: nat) | Received(ev: Event, dropped: nat) | Closed(dropped: nat)

  predicate IsExit(i: Input) { i.CtxDone? || i.Closed? }

  function StatusString(s: AgentStatus): string {
    match s
    case Queued => "waiting" case Thinking => "running" case Tooling => "running" case DoneStatus => "done"
    case ErrorStatus => "error" case Cancelled => "cancelled" case OtherStatus => "waiting"
  }

  /** Everything but tokens is broadcast at once, with at most one message. */
  function Immediate(ev: Event): seq<Broadcast> {
    match ev
    case Token(_, _) => []
    case StatusChange(a, n, s) =>
      if s.DoneStatus? || s.ErrorStatus? then [] else [AgentStatusMsg(a, n, StatusString(s), Unset)]
    case CompleteEvent(a, n) => [AgentStatusMsg(a, n, "done", Success)]
    case ErrorEvent(a, n, m) => [AgentStatusMsg(a, n, "error", Failure(m))]
    case ToolStart(a, t) => [AgentToolStart(a, t)]
    case ToolDone(a, t) => [AgentToolDone(a, t)]
    case Malformed => []
  }

  /**
   What an event makes known at once, told field by field: tokens and misfits nothing; a
   status its label, but terminal ones nothing, since completion and error announce them.
   */
  predicate AtOnce(ev: Event, m: seq<Broadcast>) {
    && (ev.Token? || ev.Malformed? ==> m == [])
    && (ev.StatusChange? && (ev.status.DoneStatus? || ev.status.ErrorStatus?) ==> m == [])
    && (ev.StatusChange? && (ev.status.Thinking? || ev.status.Tooling?) ==>
          m == [AgentStatusMsg(ev.agent, ev.name, "running", Unset)])
    && (ev.StatusChange? && ev.status.Cancelled? ==> m == [AgentStatusMsg(ev.agent, ev.name, "cancelled", Unset)])
    && (ev.StatusChange? && (ev.status.Queued? || ev.status.OtherStatus?) ==>
          m == [AgentStatusMsg(ev.agent, ev.name, "waiting", Unset)])
    && (ev.CompleteEvent? ==> m == [AgentStatusMsg(ev.agent, ev.name, "done", Success)])
    && (ev.ErrorEvent? ==> m == [AgentStatusMsg(ev.agent, ev.name, "error", Failure(ev.message))])
    && (ev.ToolStart? ==> m == [AgentToolStart(ev.agent, ev.tool)])
    && (ev.ToolDone? ==> m == [AgentToolDone(ev.agent, ev.tool)])
  }

  /** An agent is told done, or in error, once per completion, or error, of its own, and at no other event. */
  lemma TerminalOnce(ev: Event, b: Broadcast)
    requires b in Immediate(ev) && b.AgentStatusMsg?
    ensures b.status == "done" <==> ev.CompleteEvent?
    ensures b.status == "error" <==> ev.ErrorEvent?
    ensures b.outcome != Unset <==> b.status == "done" || b.status == "error"
  {
  }

  // ---------------------------------------------------------------- reference readings of inputs and outputs

  /** All token text received for an agent, in order. */
  function TokensFor(inputs: seq<Input>, agent: string): string {
    if inputs == [] then "" else
    AddToken(TokensFor(inputs[..|inputs| - 1], agent), inputs[|inputs| - 1], agent)
  }

  /** The text with what this input brings for the agent. */
  function AddToken(text: string, i: Input, agent: string): string {
    if i.Received? && i.ev.Token? && i.ev.agent == agent then text + i.ev.content else text
  }

  /** All token text broadcast for an agent, in order. */
  function FlushedFor(sent: seq<Broadcast>, agent: string): string {
    if sent == [] then "" else
    var b := sent[|sent| - 1];
    var before := FlushedFor(sent[..|sent| - 1], agent);
    if b.AgentToken? && b.agent == agent then before + b.content else before
  }

  /** Broadcasts other than tokens and warnings, in order. */
  function Events(sent: seq<Broadcast>): seq<Broadcast> {
    if sent == [] then [] else
    var b := sent[|sent| - 1];
    var before := Events(sent[..|sent| - 1]);
    if b.AgentToken? || b.DropWarning? then before else before + [b]
  }

  function Warnings(sent: seq<Broadcast>): nat {
    if sent == [] then 0 else Warnings(sent[..|sent| - 1]) + if sent[|sent| - 1].DropWarning? then 1 else 0
  }

  /** How often a fixed threshold was announced. */
  function Announced(sent: seq<Broadcast>, threshold: nat): nat {
    if sent == [] then 0 else
    Announced(sent[..|sent| - 1], threshold)
    + if sent[|sent| - 1].DropWarning? && sent[|sent| - 1].threshold == threshold then 1 else 0
  }

  lemma OneMore(sent: seq<Broadcast>, b: Broadcast)
    ensures forall a :: FlushedFor(sent + [b], a) ==
                        if b.AgentToken? && b.agent == a then FlushedFor(sent, a) + b.content else FlushedFor(sent, a)
    ensures Events(sent + [b]) == if b.AgentToken? || b.DropWarning? then Events(sent) else Events(sent) + [b]
    ensures Warnings(sent + [b]) == Warnings(sent) + if b.DropWarning? then 1 else 0
    ensures forall t :: Announced(sent + [b], t)
                        == Announced(sent, t) + if b.DropWarning? && b.threshold == t then 1 else 0
  {
    assert (sent + [b])[..|sent|] == sent;
  }

  // ---------------------------------------------------------------- the bridge

  type Buffers = map<string, string>

  function BufOf(bufs: Buffers, agent: string): string { if agent in bufs then bufs[agent] else "" }

  /** The buffers with what the event brings. */
  function Buffered(bufs: Buffers, ev: Event): Buffers {
    if ev.Token? && ev.content != "" then bufs[ev.agent := BufOf(bufs, ev.agent) + ev.content] else bufs
  }

  predicate AllEmpty(bufs: Buffers) { forall a <- bufs :: bufs[a] == "" }

  /** An agent's text so far: what was flushed, followed by what is buffered. */
  function TextOf(sent: seq<Broadcast>, bufs: Buffers, agent: string): string {
    FlushedFor(sent, agent) + BufOf(bufs, agent)
  }

  /** Bookkeeping of drop warnings: each fixed threshold passed once, then at least 500 drops apart. */
  ghost predicate DropsOk(sent: seq<Broadcast>, last: nat) {
    && Announced(sent, 10) <= (if last >= 10 then 1 else 0)
    && Announced(sent, 50) <= (if last >= 50 then 1 else 0)
    && Announced(sent, 200) <= (if last >= 200 then 1 else 0)
    && Warnings(sent) == Announced(sent, 10) + Announced(sent, 50) + Announced(sent, 200) + Announced(sent, 0)
    && 500 * Announced(sent, 0) <= last
  }

  lemma WarnKeepsOk(sent: seq<Broadcast>, last: nat, current: nat, t: nat)
    requires DropsOk(sent, last) && last <= current
    requires (t in {10, 50, 200} && last < t <= current) || (t == 0 && current - last >= 500 && current >= 200)
    ensures DropsOk(sent + [DropWarning(current, t)], current)
  {
    OneMore(sent, DropWarning(current, t));
  }

  /** `after` extends `before` by token messages only. */
  ghost predicate OnlyTokensAdded(before: seq<Broadcast>, after: seq<Broadcast>) {
    before <= after && forall i | |before| <= i < |after| :: after[i].AgentToken?
  }

  lemma WarningsBounded(sent: seq<Broadcast>, last: nat)
    requires DropsOk(sent, last)
    ensures Announced(sent, 10) <= 1 && Announced(sent, 50) <= 1 && Announced(sent, 200) <= 1
    ensures Warnings(sent) <= 3 + last / 500
  {
  }

  /** No agent's text changes. */
  ghost predicate Conserved(sent: seq<Broadcast>, bufs: Buffers, sent': seq<Broadcast>, bufs': Buffers) {
    forall a :: TextOf(sent', bufs', a) == TextOf(sent, bufs, a)
  }

  lemma FlushOne(sent0: seq<Broadcast>, bufs0: Buffers, sent: seq<Broadcast>, bufs: Buffers, a: string)
    requires a in bufs && Conserved(sent0, bufs0, sent, bufs) && OnlyTokensAdded(sent0, sent)
    ensures Conserved(sent0, bufs0, sent + [AgentToken(a, bufs[a])], bufs[a := ""])
    ensures OnlyTokensAdded(sent0, sent + [AgentToken(a, bufs[a])])
  {
    OneMore(sent, AgentToken(a, bufs[a]));
    forall b
      ensures TextOf(sent + [AgentToken(a, bufs[a])], bufs[a := ""], b) == TextOf(sent, bufs, b)
    {
      assert FlushedFor(sent, b) + "" == FlushedFor(sent, b);
    }
  }

  class Bridge {
    var bufs: Buffers
    var lastWarnedAt: nat
    var sent: seq<Broadcast>

    constructor (tasks: seq<(string, string)>)
      ensures bufs == map[] && lastWarnedAt == 0 && sent == [SwarmStart(tasks)]
    {
      bufs, lastWarnedAt, sent := map[], 0, [SwarmStart(tasks)];
    }

    method MaybeWarnDrops(current: nat)
      requires lastWarnedAt <= current && DropsOk(sent, lastWarnedAt)
      modifies this`lastWarnedAt, this`sent
      ensures old(lastWarnedAt) <= lastWarnedAt <= current && DropsOk(sent, lastWarnedAt)
      ensures sent == old(sent) || exists t :: sent == old(sent) + [DropWarning(current, t)]
      ensures (current >= 10 ==> lastWarnedAt >= 10) && (current >= 50 ==> lastWarnedAt >= 50)
          && (current >= 200 ==> lastWarnedAt >= 200)
      ensures current >= 200 ==> current - lastWarnedAt < 500
    {
      if current == 0 {
        return;
      }
      var thresholds: seq<nat> := [10, 50, 200];
      for i := 0 to |thresholds|
        invariant sent == old(sent) && lastWarnedAt == old(lastWarnedAt)
        invariant forall j | 0 <= j < i :: current < thresholds[j] || lastWarnedAt >= thresholds[j]
      {
        if current >= thresholds[i] && lastWarnedAt < thresholds[i] {
          WarnKeepsOk(sent, lastWarnedAt, current, thresholds[i]);
          sent := sent + [DropWarning(current, thresholds[i])];
          lastWarnedAt := current;
          return;
        }
      }
      assert thresholds[0] == 10 && thresholds[1] == 50 && thresholds[2] == 200;
      if current >= 200 && current - lastWarnedAt >= 500 {
        WarnKeepsOk(sent, lastWarnedAt, current, 0);
        sent := sent + [DropWarning(current, 0)];
        lastWarnedAt := current;
      }
    }

    /** Every non-empty buffer goes out whole, in any order of agents. */
    method FlushTokens()
      modifies this`bufs, this`sent
      ensures AllEmpty(bufs)
      ensures Conserved(old(sent), old(bufs), sent, bufs)
      ensures OnlyTokensAdded(old(sent), sent)
    {
      var todo := bufs.Keys;
      while todo != {}
        invariant todo <= bufs.Keys == old(bufs).Keys
        invariant forall a <- bufs.Keys - todo :: bufs[a] == ""
        invariant Conserved(old(sent), old(bufs), sent, bufs)
        invariant OnlyTokensAdded(old(sent), sent)
        decreases |todo|
      {
        var a :| a in todo;
        if |bufs[a]| > 0 {
          FlushOne(old(sent), old(bufs), sent, bufs, a);
          sent := sent + [AgentToken(a, bufs[a])];
          bufs := bufs[a := ""];
        }
        todo := todo - {a};
      }
    }

    method HandleSwarmEvent(ev: Event)
      modifies this`bufs, this`sent
      ensures bufs == Buffered(old(bufs), ev)
      ensures sent == old(sent) + Immediate(ev)
      ensures AtOnce(ev, sent[|old(sent)|..])
    {
      if ev.Token? {
        if ev.content != "" {
          if ev.agent !in bufs {
            bufs := bufs[ev.agent := ""];
          }
          bufs := bufs[ev.agent := bufs[ev.agent] + ev.content];
        }
      } else {
        sent := sent + Immediate(ev);
      }
    }

    /** One turn of the select loop; true when it returns. */
    method Turn(i: Input) returns (exit: bool)
      requires lastWarnedAt <= i.dropped && DropsOk(sent, lastWarnedAt)
      modifies this
      ensures exit == IsExit(i)
      ensures lastWarnedAt <= i.dropped && old(lastWarnedAt) <= lastWarnedAt && DropsOk(sent, lastWarnedAt)
      ensures Turned(old(sent), old(bufs), i, sent, bufs)
      ensures i.Tick? || exit ==> AllEmpty(bufs)
    {
      match i
      case CtxDone(dropped) =>
        FlushTokens();
        FlushExit(old(sent), old(bufs), i, sent, bufs, lastWarnedAt, true);
        sent := sent + [SwarmComplete(true, dropped)];
        return true;
      case Closed(dropped) =>
        FlushTokens();
        FlushExit(old(sent), old(bufs), i, sent, bufs, lastWarnedAt, false);
        sent := sent + [SwarmComplete(false, dropped)];
        return true;
      case Tick(dropped) =>
        FlushTokens();
        FlushTick(old(sent), old(bufs), i, sent, bufs, lastWarnedAt);
        ghost var flushed := sent;
        MaybeWarnDrops(dropped);
        WarningEffect(old(sent), old(bufs), i, flushed, sent, bufs, dropped);
        return false;
      case Received(ev, dropped) =>
        HandleSwarmEvent(ev);
        ReceiveEffect(old(sent), old(bufs), i, sent, bufs, lastWarnedAt);
        ghost var handled := sent;
        MaybeWarnDrops(dropped);
        WarningEffect(old(sent), old(bufs), i, handled, sent, bufs, dropped);
        return false;
    }
  }

  function Final(i: Input): seq<Broadcast> {
    match i
    case CtxDone(d) => [SwarmComplete(true, d)]
    case Closed(d) => [SwarmComplete(false, d)]
    case Tick(_) => []
    case Received(ev, _) => Immediate(ev)
  }

  /** Each agent's text grows by what the input brings it. */
  ghost predicate TextMoved(sent: seq<Broadcast>, bufs: Buffers, i: Input, sent': seq<Broadcast>, bufs': Buffers) {
    forall a :: TextOf(sent', bufs', a) == AddToken(TextOf(sent, bufs, a), i, a)
  }

  /** swarm_complete is the last message if there is an exit, and none of the messages from `from` on otherwise. */
  ghost predicate CompleteLast(sent: seq<Broadcast>, from: nat, exit: bool) {
    && from <= |sent| && (exit ==> from < |sent|)
    && forall k | from <= k < |sent| :: sent[k].SwarmComplete? <==> exit && k == |sent| - 1
  }

  /** One turn conserves token text, adds its own messages, and ends with swarm_complete when it exits. */
  ghost predicate Turned(sent: seq<Broadcast>, bufs: Buffers, i: Input, sent': seq<Broadcast>, bufs': Buffers) {
    && TextMoved(sent, bufs, i, sent', bufs')
    && Events(sent') == Events(sent) + Final(i)
    && sent <= sent' && CompleteLast(sent', |sent|, IsExit(i))
  }

  lemma {:induction false} TokensAddNothing(before: seq<Broadcast>, after: seq<Broadcast>)
    requires OnlyTokensAdded(before, after)
    ensures Events(after) == Events(before) && Warnings(after) == Warnings(before)
    ensures forall t :: Announced(after, t) == Announced(before, t)
    decreases |after|
  {
    if |after| == |before| {
      assert after == before;
    } else {
      var n := |after| - 1;
      assert before <= after[..n];
      TokensAddNothing(before, after[..n]);
    }
  }

  lemma FlushTick(sent0: seq<Broadcast>, bufs0: Buffers, i: Input, sent: seq<Broadcast>, bufs: Buffers, last: nat)
    requires Conserved(sent0, bufs0, sent, bufs) && OnlyTokensAdded(sent0, sent) && DropsOk(sent0, last) && i.Tick?
    ensures Turned(sent0, bufs0, i, sent, bufs) && DropsOk(sent, last)
  {
    TokensAddNothing(sent0, sent);
    assert Events(sent0) + [] == Events(sent0);
  }

  lemma FlushExit(sent0: seq<Broadcast>, bufs0: Buffers, i: Input, sent: seq<Broadcast>, bufs: Buffers, last: nat,
      cancelled: bool)
    requires Conserved(sent0, bufs0, sent, bufs) && OnlyTokensAdded(sent0, sent) && DropsOk(sent0, last)
    requires (i.CtxDone? && cancelled) || (i.Closed? && !cancelled)
    ensures Turned(sent0, bufs0, i, sent + [SwarmComplete(cancelled, i.dropped)], bufs)
    ensures DropsOk(sent + [SwarmComplete(cancelled, i.dropped)], last)
  {
    TokensAddNothing(sent0, sent);
    OneMore(sent, SwarmComplete(cancelled, i.dropped));
  }

  predicate Plain(b: Broadcast) { !b.AgentToken? && !b.DropWarning? && !b.SwarmComplete? }

  lemma ImmediateShape(ev: Event)
    ensures Immediate(ev) == [] || (|Immediate(ev)| == 1 && Plain(Immediate(ev)[0]))
  {
  }

  lemma PlainEffect(sent: seq<Broadcast>, b: Broadcast, last: nat)
    requires DropsOk(sent, last) && Plain(b)
    ensures DropsOk(sent + [b], last) && Events(sent + [b]) == Events(sent) + [b]
    ensures forall a :: FlushedFor(sent + [b], a) == FlushedFor(sent, a)
  {
    OneMore(sent, b);
  }

  lemma ImmediateEffect(sent: seq<Broadcast>, ev: Event, last: nat)
    requires DropsOk(sent, last)
    ensures var m := Immediate(ev);
            && |m| <= 1 && (forall k | 0 <= k < |m| :: !m[k].SwarmComplete?)
            && DropsOk(sent + m, last) && Events(sent + m) == Events(sent) + m
            && forall a :: FlushedFor(sent + m, a) == FlushedFor(sent, a)
  {
    ImmediateShape(ev);
    var m := Immediate(ev);
    if m == [] {
      assert sent + m == sent && Events(sent) + m == Events(sent);
    } else {
      assert m == [m[0]];
      PlainEffect(sent, m[0], last);
    }
  }

  lemma ReceiveEffect(sent0: seq<Broadcast>, bufs0: Buffers, i: Input, sent: seq<Broadcast>, bufs: Buffers, last: nat)
    requires i.Received? && sent == sent0 + Immediate(i.ev) && DropsOk(sent0, last) && bufs == Buffered(bufs0, i.ev)
    ensures Turned(sent0, bufs0, i, sent, bufs) && DropsOk(sent, last)
  {
    ImmediateEffect(sent0, i.ev, last);
    BufferedText(sent0, bufs0, i, sent, bufs);
    assert Final(i) == Immediate(i.ev);
    assert forall k | |sent0| <= k < |sent| :: sent[k] == Immediate(i.ev)[k - |sent0|];
  }

  lemma BufferedText(sent0: seq<Broadcast>, bufs0: Buffers, i: Input, sent: seq<Broadcast>, bufs: Buffers)
    requires i.Received? && bufs == Buffered(bufs0, i.ev)
    requires forall a :: FlushedFor(sent, a) == FlushedFor(sent0, a)
    ensures TextMoved(sent0, bufs0, i, sent, bufs)
  {
    forall a
      ensures TextOf(sent, bufs, a) == AddToken(TextOf(sent0, bufs0, a), i, a)
    {
      if i.ev.Token? && i.ev.agent == a {
        if i.ev.content == "" {
          assert TextOf(sent0, bufs0, a) + "" == TextOf(sent0, bufs0, a);
        } else {
          Associative(FlushedFor(sent0, a), BufOf(bufs0, a), i.ev.content);
        }
      }
    }
  }

  lemma WarningEffect(sent0: seq<Broadcast>, bufs0: Buffers, i: Input, sent: seq<Broadcast>, sent': seq<Broadcast>,
      bufs: Buffers, dropped: nat)
    requires Turned(sent0, bufs0, i, sent, bufs) && !IsExit(i)
    requires sent' == sent || exists t :: sent' == sent + [DropWarning(dropped, t)]
    ensures Turned(sent0, bufs0, i, sent', bufs)
  {
    if sent' != sent {
      var t :| sent' == sent + [DropWarning(dropped, t)];
      OneMore(sent, DropWarning(dropped, t));
      assert Events(sent) + [] == Events(sent);
    }
  }

  // ---------------------------------------------------------------- whole runs

  /** Readings of the drop counter never fall. */
  ghost predicate Nondecreasing(inputs: seq<Input>) {
    forall i, j | 0 <= i < j < |inputs| :: inputs[i].dropped <= inputs[j].dropped
  }

  /**
   The whole bridge over one run's inputs, up to the first exit (n inputs were taken).
   Tokens are conserved per agent and all out at the exit; swarm_start comes first, each
   event's message follows in order, and the single swarm_complete comes last; warnings
   are bounded by the drops.
   */
  method BridgeSwarmEvents(tasks: seq<(string, string)>, inputs: seq<Input>)
    returns (sent: seq<Broadcast>, bufs: Buffers, n: nat, exited: bool)
    requires Nondecreasing(inputs)
    ensures n <= |inputs| && (exited <==> n > 0 && IsExit(inputs[n - 1])) && (!exited ==> n == |inputs|)
    ensures forall i | 0 <= i < n - 1 :: !IsExit(inputs[i])
    ensures TextKept(inputs[..n], sent, bufs)
    ensures exited ==> AllEmpty(bufs) && forall a :: FlushedFor(sent, a) == TokensFor(inputs[..n], a)
    ensures [SwarmStart(tasks)] <= sent
    ensures Events(sent) == [SwarmStart(tasks)] + Finals(inputs[..n])
    ensures CompleteLast(sent, 0, exited)
    ensures exited ==> sent[|sent| - 1] == SwarmComplete(inputs[n - 1].CtxDone?, inputs[n - 1].dropped)
    ensures Announced(sent, 10) <= 1 && Announced(sent, 50) <= 1 && Announced(sent, 200) <= 1
    ensures n > 0 ==> Warnings(sent) <= 3 + inputs[n - 1].dropped / 500
  {
    hide TextKept, TextMoved, Turned, CompleteLast, AllEmpty, DropsOk;
    var b := new Bridge(tasks);
    n, exited := 0, false;
    StartOk(tasks);
    ghost var taken: seq<Input> := [];
    while n < |inputs| && !exited
      invariant fresh(b) && n <= |inputs| && taken == inputs[..n] && exited == Exited(taken)
      invariant forall i | 0 <= i < n - 1 :: !IsExit(inputs[i])
      invariant b.lastWarnedAt <= (if n > 0 then inputs[n - 1].dropped else 0) && DropsOk(b.sent, b.lastWarnedAt)
      invariant RunOk(tasks, taken, b.sent, b.bufs) && (exited ==> AllEmpty(b.bufs))
      decreases |inputs| - n
    {
      ghost var was, had := b.sent, b.bufs;
      exited := b.Turn(inputs[n]);
      RunOkStep(tasks, taken, inputs[n], was, had, b.sent, b.bufs);
      taken := taken + [inputs[n]];
      n := n + 1;
    }
    sent, bufs := b.sent, b.bufs;
    WarningsBounded(sent, b.lastWarnedAt);
    if exited {
      AllFlushed(taken, sent, bufs);
      LastIsComplete(tasks, taken, sent, bufs);
    }
  }

  lemma AllFlushed(taken: seq<Input>, sent: seq<Broadcast>, bufs: Buffers)
    requires TextKept(taken, sent, bufs) && AllEmpty(bufs)
    ensures forall a :: FlushedFor(sent, a) == TokensFor(taken, a)
  {
    assert forall a :: TextOf(sent, bufs, a) == TokensFor(taken, a);
    assert forall a :: FlushedFor(sent, a) + "" == FlushedFor(sent, a);
  }

  lemma LastIsComplete(tasks: seq<(string, string)>, taken: seq<Input>, sent: seq<Broadcast>, bufs: Buffers)
    requires RunOk(tasks, taken, sent, bufs) && Exited(taken)
    ensures sent != [] && sent[|sent| - 1] == SwarmComplete(taken[|taken| - 1].CtxDone?, taken[|taken| - 1].dropped)
  {
    var b := sent[|sent| - 1];
    assert b.SwarmComplete?;
    assert Events(sent)[|Events(sent)| - 1] == b;
  }

  function Finals(taken: seq<Input>): seq<Broadcast> {
    if taken == [] then [] else Finals(taken[..|taken| - 1]) + Final(taken[|taken| - 1])
  }

  predicate Exited(taken: seq<Input>) { taken != [] && IsExit(taken[|taken| - 1]) }

  ghost predicate TextKept(taken: seq<Input>, sent: seq<Broadcast>, bufs: Buffers) {
    forall a :: TextOf(sent, bufs, a) == TokensFor(taken, a)
  }

  /** What holds once the inputs in `taken` were handled. */
  ghost predicate RunOk(tasks: seq<(string, string)>, taken: seq<Input>, sent: seq<Broadcast>, bufs: Buffers) {
    && TextKept(taken, sent, bufs)
    && [SwarmStart(tasks)] <= sent
    && Events(sent) == [SwarmStart(tasks)] + Finals(taken)
    && CompleteLast(sent, 0, Exited(taken))
  }

  lemma RunOkStep(tasks: seq<(string, string)>, taken: seq<Input>, i: Input,
                  sent: seq<Broadcast>, bufs: Buffers, sent': seq<Broadcast>, bufs': Buffers)
    requires RunOk(tasks, taken, sent, bufs) && !Exited(taken) && Turned(sent, bufs, i, sent', bufs')
    ensures RunOk(tasks, taken + [i], sent', bufs')
  {
    TextStep(taken, i, sent, bufs, sent', bufs');
    EventsStep([SwarmStart(tasks)], taken, i, Events(sent), Events(sent'));
    CompleteStep(sent, sent', IsExit(i));
    TakenStep(taken, i);
  }

  lemma TextStep(taken: seq<Input>, i: Input, sent: seq<Broadcast>, bufs: Buffers, sent': seq<Broadcast>,
      bufs': Buffers)
    requires TextKept(taken, sent, bufs) && TextMoved(sent, bufs, i, sent', bufs')
    ensures TextKept(taken + [i], sent', bufs')
  {
    TakenStep(taken, i);
  }

  lemma EventsStep(head: seq<Broadcast>, taken: seq<Input>, i: Input, events: seq<Broadcast>, events': seq<Broadcast>)
    requires events == head + Finals(taken) && events' == events + Final(i)
    ensures events' == head + Finals(taken + [i])
  {
    TakenStep(taken, i);
    Associative(head, Finals(taken), Final(i));
  }

  lemma CompleteStep(sent: seq<Broadcast>, sent': seq<Broadcast>, exit: bool)
    requires sent <= sent' && CompleteLast(sent, 0, false) && CompleteLast(sent', |sent|, exit)
    ensures CompleteLast(sent', 0, exit)
  {
    assert forall k | 0 <= k < |sent| :: sent'[k] == sent[k];
  }

  lemma TakenStep(taken: seq<Input>, i: Input)
    ensures Finals(taken + [i]) == Finals(taken) + Final(i)
    ensures forall a :: TokensFor(taken + [i], a) == AddToken(TokensFor(taken, a), i, a)
    ensures Exited(taken + [i]) <==> IsExit(i)
  {
    assert (taken + [i])[..|taken|] == taken;
  }

  lemma StartOk(tasks: seq<(string, string)>)
    ensures DropsOk([SwarmStart(tasks)], 0) && RunOk(tasks, [], [SwarmStart(tasks)], map[])
  {
    OneMore([], SwarmStart(tasks));
    assert [] + [SwarmStart(tasks)] == [SwarmStart(tasks)];
  }
}
