/**
 A conversation session (internal/agent/session.go): its exclusive run slot and its
 bounded history.
 */
module Sessions {
  import opened Backend
  import opened Options
  import opened Collections

  const MAX_HISTORY := 100

  // ---------------------------------------------------------------- what the locked sections do

  /** The mutex-guarded part of the run slot. Channels are numbered in creation order. */
  datatype RunSlot = RunSlot(running: int, idleCh: Option<nat>, made: nat)

  /** `tryBeginRun` when it succeeds. */
  function Begun(s: RunSlot): RunSlot { RunSlot(s.running + 1, Some(s.made), s.made + 1) }

  /** The locked section of `endRun`; the channel to close is the one current before it. */
  function Ended(s: RunSlot): RunSlot {
    s.(running := s.running - 1, idleCh := if s.running == 1 then None else s.idleCh)
  }

  /** What `WaitForIdle` takes away from its locked section: nothing to wait for, or a channel. */
  function WaitOn(s: RunSlot): Option<nat> { if s.running == 0 then None else s.idleCh }

  predicate IsSystem(m: Message) { m.role == "system" }

  function Trim(history: seq<Message>): seq<Message> {
    if |history| <= MAX_HISTORY then history
    else if IsSystem(history[0]) then [history[0]] + history[|history| - (MAX_HISTORY - 1)..]
    else history[|history| - MAX_HISTORY..]
  }

  class Session {
    var running: int
    var idleCh: Option<nat>
    var made: nat
    var closed: set<nat>
    var history: seq<Message>

    ghost function Slot(): RunSlot reads this { RunSlot(running, idleCh, made) }

    constructor ()
      ensures Slot() == RunSlot(0, None, 0) && closed == {} && history == []
    {
      running, idleCh, made, closed, history := 0, None, 0, {}, [];
    }

    method TryBeginRun() returns (ok: bool)
      modifies this`running, this`idleCh, this`made
      ensures ok == (old(running) <= 0)
      ensures Slot() == if ok then Begun(old(Slot())) else old(Slot())
    {
      if running > 0 {
        return false;
      }
      running := running + 1;
      idleCh := Some(made);
      made := made + 1;
      return true;
    }

    /** Nobody else acting, `endRun` frees the slot and closes its channel, once. */
    method EndRun()
      requires running == 1 && idleCh.Some? && idleCh.value !in closed
      modifies this`running, this`idleCh, this`closed
      ensures Slot() == Ended(old(Slot())) && running == 0
      ensures closed == old(closed) + {old(idleCh).value}
    {
      running := running - 1;
      var ch := idleCh;
      if running == 0 {
        idleCh := None;
      }
      if ch.Some? {
        closed := closed + {ch.value};
      }
    }

    /** The locked section of `WaitForIdle`; WaitsForTheOwner says what the channel is good for. */
    method IdleChannel() returns (ch: Option<nat>)
      ensures ch == WaitOn(Slot())
    {
      if running == 0 {
        return None;
      }
      return idleCh;
    }

    method AppendHistory(msgs: seq<Message>)
      modifies this`history
      ensures history == Trim(old(history) + msgs)
      ensures |history| <= MAX_HISTORY
    {
      history := history + msgs;
      if |history| > MAX_HISTORY {
        if IsSystem(history[0]) {
          history := [history[0]] + history[|history| - (MAX_HISTORY - 1)..];
        } else {
          history := history[|history| - MAX_HISTORY..];
        }
      }
    }
  }

  // ---------------------------------------------------------------- bounded history refines the full log

  /** History after the appends, oldest batch first. */
  function Appended(batches: seq<seq<Message>>): seq<Message> {
    if batches == [] then [] else Trim(Appended(batches[..|batches| - 1]) + batches[|batches| - 1])
  }

  function Log(batches: seq<seq<Message>>): seq<Message> {
    if batches == [] then [] else Log(batches[..|batches| - 1]) + batches[|batches| - 1]
  }

  /**
   The history holds the whole log, or its first message is the system prompt, or no other
   system message can be pinned in front.
   */
  predicate NothingToPin(log: seq<Message>) {
    || |log| <= MAX_HISTORY
    || IsSystem(log[0])
    || forall i | 1 <= i < |log| - MAX_HISTORY && IsSystem(log[i]) :: log[i] == log[|log| - MAX_HISTORY]
  }

  /**
   However the messages were batched, the history is the whole log while it fits, and then
   the system prompt and the last 99, or just the last 100 when there is no prompt.
   */
  lemma {:induction false} HistoryIsWindow(batches: seq<seq<Message>>)
    requires NothingToPin(Log(batches))
    ensures var log := Log(batches);
            && (|log| <= MAX_HISTORY ==> Appended(batches) == log)
            && (|log| > MAX_HISTORY && IsSystem(log[0]) ==> Appended(batches) == [log[0]] + log[|log| - 99..])
            && (|log| > MAX_HISTORY && !IsSystem(log[0]) ==> Appended(batches) == log[|log| - 100..])
  {
    HistoryShape(batches);
    var log, h := Log(batches), Appended(batches);
    if |log| > MAX_HISTORY && !IsSystem(log[0]) {
      assert h == [h[0]] + h[1..];
      assert log[|log| - 100..] == [log[|log| - 100]] + log[|log| - 99..];
    }
  }

  /** The first message of a trimmed history without a prompt: the one due, or a system message trimmed away since. */
  ghost predicate Front(log: seq<Message>, m: Message)
    requires |log| > MAX_HISTORY
  {
    m == log[|log| - MAX_HISTORY] || exists j | 1 <= j < |log| - MAX_HISTORY :: IsSystem(log[j]) && m == log[j]
  }

  /** What a history can look like. */
  ghost predicate Shape(log: seq<Message>, h: seq<Message>) {
    if |log| <= MAX_HISTORY then h == log
    else
      && |h| == MAX_HISTORY && h[1..] == Last(log, MAX_HISTORY - 1)
      && (if IsSystem(log[0]) then h[0] == log[0] else Front(log, h[0]))
  }

  lemma {:induction false} HistoryShape(batches: seq<seq<Message>>)
    ensures Shape(Log(batches), Appended(batches))
    decreases |batches|
  {
    if batches != [] {
      HistoryShape(batches[..|batches| - 1]);
      AppendKeepsShape(Log(batches[..|batches| - 1]), Appended(batches[..|batches| - 1]), batches[|batches| - 1]);
    }
  }

  lemma AppendKeepsShape(log: seq<Message>, h: seq<Message>, more: seq<Message>)
    requires Shape(log, h)
    ensures Shape(log + more, Trim(h + more))
  {
    if |log + more| > MAX_HISTORY {
      if more == [] {
        assert log + more == log && h + more == h;
      } else if |log| < MAX_HISTORY {
        TrimShape(log + more);
      } else {
        AppendToFull(log, h, more);
      }
    }
  }

  /** Trimming a log once gives its window. */
  lemma TrimShape(log: seq<Message>)
    requires |log| > MAX_HISTORY
    ensures Shape(log, Trim(log))
  {
  }

  lemma AppendToFull(log: seq<Message>, h: seq<Message>, more: seq<Message>)
    requires Shape(log, h) && |log| >= MAX_HISTORY && more != []
    ensures Shape(log + more, Trim(h + more))
  {
    var end := h[1..] + more;
    assert h == [h[0]] + h[1..] && h + more == [h[0]] + end;
    assert h[1..] == Last(log, MAX_HISTORY - 1);
    assert Last(log + more, MAX_HISTORY) == Last(end, MAX_HISTORY);
    assert Last(log + more, MAX_HISTORY - 1) == Last(end, MAX_HISTORY - 1);
    TrimLong([h[0]] + end);
    LastOfConcat([h[0]], end, MAX_HISTORY);
    LastOfConcat([h[0]], end, MAX_HISTORY - 1);
    if !IsSystem(log[0]) && IsSystem(h[0]) {
      PinnedStays(log, h[0], more);
    }
  }

  /** A system message in front of a full history is in the part of the log that the next append trims away. */
  lemma PinnedStays(log: seq<Message>, m: Message, more: seq<Message>)
    requires |log| > MAX_HISTORY && Front(log, m) && IsSystem(m) && more != []
    ensures Front(log + more, m)
  {
    hide IsSystem;
    var j :| 1 <= j < |log| - MAX_HISTORY + 1 && log[j] == m;
    assert (log + more)[j] == m && j < |log + more| - MAX_HISTORY;
  }

  function Last(s: seq<Message>, n: nat): seq<Message>
    requires n <= |s|
  {
    s[|s| - n..]
  }

  lemma LastOfConcat(a: seq<Message>, b: seq<Message>, n: nat)
    requires n <= |b|
    ensures Last(a + b, n) == Last(b, n)
  {
  }

  lemma TrimLong(history: seq<Message>)
    requires |history| >= MAX_HISTORY
    ensures IsSystem(history[0]) ==> Trim(history) == [history[0]] + Last(history, MAX_HISTORY - 1)
    ensures !IsSystem(history[0]) ==> Trim(history) == Last(history, MAX_HISTORY)
  {
    if |history| == MAX_HISTORY {
      assert history == [history[0]] + history[1..];
    }
  }

  /**
   A system message that is not the first logged one, appended up to the point where it
   leads the history, is pinned there by the next append in place of the message due.
   */
  lemma LateSystemMessageSticks(log: seq<Message>, i: nat)
    requires 1 <= i < |log| - MAX_HISTORY && !IsSystem(log[0]) && IsSystem(log[i])
    ensures var batches := [log[..i + MAX_HISTORY], log[i + MAX_HISTORY..]];
            Log(batches) == log && Appended(batches) == [log[i]] + Last(log, MAX_HISTORY - 1)
  {
    hide IsSystem, Trim, Log, Appended;
    var first, more := log[..i + MAX_HISTORY], log[i + MAX_HISTORY..];
    TwoBatches(first, more);
    assert first + more == log;
    TrimLong(first);
    assert first[0] == log[0] && Last(first, MAX_HISTORY) == log[i..i + MAX_HISTORY];
    assert log[i..i + MAX_HISTORY] + more == log[i..];
    TrimLong(log[i..]);
    assert Last(log[i..], MAX_HISTORY - 1) == Last(log, MAX_HISTORY - 1);
  }

  lemma TwoBatches(a: seq<Message>, b: seq<Message>)
    ensures Log([a, b]) == a + b && Appended([a, b]) == Trim(Trim(a) + b)
  {
    hide Trim;
    var one := [a];
    assert one[..0] == [] && [a, b][..1] == one && [] + a == a;
    assert Appended(one[..0]) == [] && Log(one[..0]) == [];
    assert Log(one) == a && Appended(one) == Trim(a);
  }

  /** Exactly the logs whose history does not depend on how they were cut into appends: those with nothing to pin. */
  lemma WindowIff(log: seq<Message>)
    ensures (forall batches | Log(batches) == log :: Appended(batches) == Trim(log)) <==> NothingToPin(log)
  {
    hide IsSystem, Trim, Log, Appended;
    if NothingToPin(log) {
      forall batches | Log(batches) == log
        ensures Appended(batches) == Trim(log)
      {
        HistoryIsWindow(batches);
        WindowOf(log);
      }
    } else {
      var i :| 1 <= i < |log| - MAX_HISTORY && IsSystem(log[i]) && log[i] != log[|log| - MAX_HISTORY];
      LateSystemMessageSticks(log, i);
      TrimLong(log);
      assert ([log[i]] + Last(log, MAX_HISTORY - 1))[0] != Last(log, MAX_HISTORY)[0];
    }
  }

  lemma WindowOf(log: seq<Message>)
    ensures |log| <= MAX_HISTORY ==> Trim(log) == log
    ensures |log| > MAX_HISTORY && IsSystem(log[0]) ==> Trim(log) == [log[0]] + log[|log| - 99..]
    ensures |log| > MAX_HISTORY && !IsSystem(log[0]) ==> Trim(log) == log[|log| - 100..]
  {
  }

  // ---------------------------------------------------------------- the run-slot protocol

  /** Where a goroutine stands: `endRun` gives the slot back first and closes the channel afterwards. */
  datatype Pc = Outside | Owner | Closing(taken: Option<nat>) | Waiting(ch: nat)

  datatype State = State(slot: RunSlot, closedLog: seq<nat>, pcs: map<nat, Pc>)

  datatype Step = Begin(t: nat) | End(t: nat) | Close(t: nat) | Wait(t: nat) | Wake(t: nat) | GiveUp(t: nat)

  function PcOf(s: State, t: nat): Pc { if t in s.pcs then s.pcs[t] else Outside }

  function Start(): State { State(RunSlot(0, None, 0), [], map[]) }

  predicate Enabled(s: State, step: Step) {
    var pc := PcOf(s, step.t);
    match step
    case Begin(_) => pc.Outside?
    case End(_) => pc.Owner?
    case Close(_) => pc.Closing?
    case Wait(_) => pc.Outside?
    case Wake(_) => pc.Waiting? && pc.ch in s.closedLog
    case GiveUp(_) => pc.Waiting?
  }

  function Take(s: State, step: Step): State
    requires Enabled(s, step)
  {
    var t := step.t;
    match step
    case Begin(_) => if s.slot.running > 0 then s else s.(slot := Begun(s.slot), pcs := s.pcs[t := Owner])
    case End(_) => s.(slot := Ended(s.slot), pcs := s.pcs[t := Closing(s.slot.idleCh)])
    case Close(_) =>
      var ch := PcOf(s, t).taken;
      s.(closedLog := s.closedLog + (if ch.Some? then [ch.value] else []), pcs := s.pcs[t := Outside])
    case Wait(_) =>
      var ch := WaitOn(s.slot);
      if ch.None? then s else s.(pcs := s.pcs[t := Waiting(ch.value)])
    case Wake(_) => s.(pcs := s.pcs[t := Outside])
    case GiveUp(_) => s.(pcs := s.pcs[t := Outside])
  }

  /** Some goroutine has taken channel c out of the slot and is about to close it. */
  ghost predicate AboutToClose(s: State, c: nat) { exists t :: PcOf(s, t) == Closing(Some(c)) }

  ghost predicate OwnerInv(s: State) {
    && 0 <= s.slot.running <= 1
    && (s.slot.running == 1 <==> s.slot.idleCh.Some?)
    && (s.slot.running == 1 <==> exists t :: PcOf(s, t).Owner?)
    && (forall t, u :: PcOf(s, t).Owner? && PcOf(s, u).Owner? ==> t == u)
  }

  /** Every channel made is current, about to be closed, or closed: one of the three, by one goroutine, once. */
  ghost predicate ChannelInv(s: State) {
    && (s.slot.idleCh.Some? ==> s.slot.idleCh.value < s.slot.made && s.slot.idleCh.value !in s.closedLog)
    && (forall t :: PcOf(s, t).Closing? ==>
          && PcOf(s, t).taken.Some? && PcOf(s, t).taken.value < s.slot.made
          && PcOf(s, t).taken.value !in s.closedLog && PcOf(s, t).taken != s.slot.idleCh)
    && (forall t, u :: PcOf(s, t).Closing? && PcOf(s, u).Closing? && PcOf(s, t).taken == PcOf(s, u).taken ==> t == u)
    && (forall i, j | 0 <= i < j < |s.closedLog| :: s.closedLog[i] != s.closedLog[j])
    && (forall c <- s.closedLog :: c < s.slot.made)
    && (forall c: nat | c < s.slot.made :: s.slot.idleCh == Some(c) || AboutToClose(s, c) || c in s.closedLog)
    && (forall t :: PcOf(s, t).Waiting? ==> PcOf(s, t).ch < s.slot.made)
  }

  ghost predicate Inv(s: State) { OwnerInv(s) && ChannelInv(s) }

  lemma StepKeepsOwner(s: State, step: Step)
    requires Inv(s) && Enabled(s, step)
    ensures OwnerInv(Take(s, step))
  {
    var s', t := Take(s, step), step.t;
    if s' != s {
      assert forall u :: PcOf(s', u) == if u == t then PcOf(s', t) else PcOf(s, u);
      if u :| PcOf(s, u).Owner? {
        assert step.End? || PcOf(s', u).Owner?;
      }
    }
  }

  lemma StepKeepsChannels(s: State, step: Step)
    requires Inv(s) && Enabled(s, step)
    ensures ChannelInv(Take(s, step))
  {
    var s', t := Take(s, step), step.t;
    if s' != s {
      assert forall u :: PcOf(s', u) == if u == t then PcOf(s', t) else PcOf(s, u);
      forall c: nat | c < s'.slot.made
        ensures s'.slot.idleCh == Some(c) || AboutToClose(s', c) || c in s'.closedLog
      {
        if c < s.slot.made && AboutToClose(s, c) {
          var u :| PcOf(s, u) == Closing(Some(c));
          assert u != t ==> PcOf(s', u) == Closing(Some(c));
        } else if step.End? {
          assert PcOf(s', t) == Closing(s.slot.idleCh);
        }
      }
    }
  }

  lemma StepKeepsInv(s: State, step: Step)
    requires Inv(s) && Enabled(s, step)
    ensures Inv(Take(s, step))
  {
    StepKeepsOwner(s, step);
    StepKeepsChannels(s, step);
  }

  function Run(s: State, steps: seq<Step>): Option<State>
    decreases |steps|
  {
    if steps == [] then Some(s)
    else if Enabled(s, steps[0]) then Run(Take(s, steps[0]), steps[1..])
    else None
  }

  lemma {:induction false} RunKeepsInv(s: State, steps: seq<Step>)
    requires Inv(s) && Run(s, steps).Some?
    ensures Inv(Run(s, steps).value)
    decreases |steps|
  {
    if steps != [] {
      StepKeepsInv(s, steps[0]);
      RunKeepsInv(Take(s, steps[0]), steps[1..]);
    }
  }

  /**
   Over every interleaving: one owner at most; no channel is closed twice, nor about to be;
   and every waiter's channel is current with a live owner, about to be closed, or closed.
   */
  lemma RunSlotSafe(steps: seq<Step>, s: State)
    requires Run(Start(), steps) == Some(s)
    ensures forall t, u :: PcOf(s, t).Owner? && PcOf(s, u).Owner? ==> t == u
    ensures s.slot.running > 0 <==> exists t :: PcOf(s, t).Owner?
    ensures forall i, j | 0 <= i < j < |s.closedLog| :: s.closedLog[i] != s.closedLog[j]
    ensures forall t :: PcOf(s, t).Closing? ==> PcOf(s, t).taken.Some? && PcOf(s, t).taken.value !in s.closedLog
    ensures forall t :: PcOf(s, t).Waiting? ==>
              var c := PcOf(s, t).ch;
              || (s.slot.idleCh == Some(c) && exists u :: PcOf(s, u).Owner?)
              || AboutToClose(s, c)
              || c in s.closedLog
  {
    RunKeepsInv(Start(), steps);
  }

  /**
   In every reachable state a waiter finds nothing to wait for exactly if nobody owns the
   slot; otherwise it gets a channel that is still open, and that the owner's `endRun`
   takes along to close.
   */
  lemma WaitsForTheOwner(steps: seq<Step>, s: State)
    requires Run(Start(), steps) == Some(s)
    ensures WaitOn(s.slot).None? <==> forall t :: !PcOf(s, t).Owner?
    ensures WaitOn(s.slot).Some? ==>
              var c := WaitOn(s.slot).value;
              && c !in s.closedLog && !AboutToClose(s, c)
              && forall t :: PcOf(s, t).Owner? ==> Enabled(s, End(t)) && PcOf(Take(s, End(t)), t) == Closing(Some(c))
  {
    RunKeepsInv(Start(), steps);
  }

  /** From any reachable state a waiter is at most three steps away from waking, none of them its own but the last. */
  lemma WaiterCanWake(s: State, t: nat) returns (steps: seq<Step>)
    requires Inv(s) && PcOf(s, t).Waiting?
    ensures |steps| <= 3 && Run(s, steps).Some? && PcOf(Run(s, steps).value, t).Outside?
    ensures steps != [] && steps[|steps| - 1] == Wake(t)
    ensures forall i | 0 <= i < |steps| - 1 :: steps[i].t != t && (steps[i].End? || steps[i].Close?)
  {
    var c := PcOf(s, t).ch;
    if c in s.closedLog {
      steps := [Wake(t)];
    } else if AboutToClose(s, c) {
      steps := CloseAndWake(s, t);
    } else {
      var u :| PcOf(s, u).Owner?;
      var s1 := Take(s, End(u));
      StepKeepsInv(s, End(u));
      assert PcOf(s1, u) == Closing(Some(c)) && PcOf(s1, t) == PcOf(s, t);
      var rest := CloseAndWake(s1, t);
      steps := [End(u)] + rest;
      assert steps[1..] == rest;
    }
  }

  lemma CloseAndWake(s: State, t: nat) returns (steps: seq<Step>)
    requires Inv(s) && PcOf(s, t).Waiting? && AboutToClose(s, PcOf(s, t).ch)
    ensures |steps| == 2 && Run(s, steps).Some? && PcOf(Run(s, steps).value, t).Outside?
    ensures steps[1] == Wake(t) && steps[0].Close? && steps[0].t != t
  {
    var u :| PcOf(s, u) == Closing(Some(PcOf(s, t).ch));
    steps := [Close(u), Wake(t)];
    var s1 := Take(s, Close(u));
    assert PcOf(s1, t) == PcOf(s, t) && PcOf(s, t).ch in s1.closedLog;
    assert steps[1..] == [Wake(t)] && [Wake(t)][1..] == [];
    assert Run(s1, [Wake(t)]) == Some(Take(s1, Wake(t)));
  }
}
