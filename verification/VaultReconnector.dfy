/**
 Mid-session vault reconnect (internal/agent/mcp_vault.go): who holds which MCP client, and
 which vault tools the session registry offers.
 */
module VaultReconnector {
  import opened Options

  const VAULT_MAX_ATTEMPTS := 2

  /** Vault tools remember the client they call. */
  datatype Tool = Builtin | Vault(client: nat)

  type Registry = map<string, Tool>

  /** How the world answers one connection attempt. */
  datatype Attempt = Attempt(ctxDone: bool, waitCancelled: bool, initOk: bool, listOk: bool, tools: seq<string>)

  /** Registration skips any other name (internal/tools/registry.go, `validateToolSchema`). */
  predicate ValidName(name: string) {
    && 1 <= |name| <= 64
    && forall c <- name :: 'a' <= c <= 'z' || 'A' <= c <= 'Z' || '0' <= c <= '9' || c == '_' || c == '-'
  }

  // ---------------------------------------------------------------- what the operations come to

  datatype Connection = Connection(closes: seq<nat>, client: Option<nat>, tools: seq<string>)

  /** closes[c] counts how often client c was closed; its length is the number of clients built. */
  function Connect(closes: seq<nat>, attempts: seq<Attempt>, i: nat, max: nat): Connection
    requires |attempts| >= max
    decreases max - i
  {
    if i >= max || attempts[i].ctxDone || (i > 0 && attempts[i].waitCancelled) then Connection(closes, None, [])
    else if attempts[i].initOk && attempts[i].listOk then Connection(closes + [0], Some(|closes|), attempts[i].tools)
    else Connect(closes + [1], attempts, i + 1, max)
  }

  function Register(reg: Registry, names: seq<string>, client: nat): Registry {
    if names == [] then reg else
    var n := names[|names| - 1];
    var before := Register(reg, names[..|names| - 1], client);
    if ValidName(n) then before[n := Vault(client)] else before
  }

  function Unregister(reg: Registry, names: seq<string>): Registry {
    map n | n in reg && n !in names :: reg[n]
  }

  datatype State = Session(
    registry: Registry,
    toolNames: seq<string>,
    current: Option<nat>,       // the client cancelCurrent closes
    closes: seq<nat>,
    warned: bool,               // the sync.Once has fired
    warnings: nat,              // history: warnings emitted
    connections: nat)           // history: connections made

  function Closed(s: State): State {
    s.(registry := Unregister(s.registry, s.toolNames), toolNames := [], current := None,
       closes := if s.current.Some? && s.current.value < |s.closes|
                 then s.closes[s.current.value := s.closes[s.current.value] + 1] else s.closes)
  }

  /** `TryReconnect` holding the lock. */
  function Reconnected(s: State, attempts: seq<Attempt>): State
    requires |attempts| >= VAULT_MAX_ATTEMPTS
  {
    var down := Closed(s);
    var c := Connect(down.closes, attempts, 0, VAULT_MAX_ATTEMPTS);
    if c.client.None? then down.(closes := c.closes)
    else down.(closes := c.closes, registry := Register(down.registry, c.tools, c.client.value), toolNames := c.tools,
               current := c.client, warned := false, connections := s.connections + 1)
  }

  function Warned(s: State): State {
    if s.warned then s else s.(warned := true, warnings := s.warnings + 1)
  }

  // ---------------------------------------------------------------- invariant

  /** At most one built client is open, the one cancelCurrent closes; all others were closed exactly once. */
  predicate ClientsOk(s: State) {
    && (s.current.Some? ==> s.current.value < |s.closes|)
    && forall c: nat | c < |s.closes| :: s.closes[c] == if s.current == Some(c) then 0 else 1
  }

  /** The vault tools on offer are those of toolNames that registration accepts, all calling the current client. */
  ghost predicate ToolsOk(s: State) {
    && (s.current.None? ==> s.toolNames == [])
    && (forall n <- s.registry ::
          s.registry[n].Vault? ==> ValidName(n) && n in s.toolNames && s.current == Some(s.registry[n].client))
    && (forall n <- s.toolNames :: ValidName(n) ==> n in s.registry && s.registry[n].Vault?)
  }

  /** One warning per connection at most. */
  predicate WarningsOk(s: State) { s.warnings + (if s.warned then 0 else 1) <= s.connections }

  ghost predicate Inv(s: State) { ClientsOk(s) && ToolsOk(s) && WarningsOk(s) }

  lemma {:induction false} ConnectShape(closes: seq<nat>, attempts: seq<Attempt>, i: nat, max: nat)
    requires i <= max <= |attempts|
    ensures var c := Connect(closes, attempts, i, max);
            && closes <= c.closes && |c.closes| <= |closes| + (max - i)
            && (forall k | |closes| <= k < |c.closes| :: c.closes[k] == if c.client == Some(k) then 0 else 1)
            && (c.client.Some? ==> |closes| <= c.client.value < |c.closes|)
    decreases max - i
  {
    if i < max {
      ConnectShape(closes + [1], attempts, i + 1, max);
    }
  }

  predicate Good(a: Attempt) { a.initOk && a.listOk }

  /** The i-th attempt, counted from s, is made, and is the first that works. */
  predicate FirstGood(attempts: seq<Attempt>, s: nat, i: nat) {
    && s <= i < |attempts| && Good(attempts[i]) && (forall j | s <= j < i :: !Good(attempts[j]))
    && forall j | s <= j <= i :: !attempts[j].ctxDone && (j > 0 ==> !attempts[j].waitCancelled)
  }

  /**
   There is a connection exactly if some attempt works before the context ends or a pause is
   cut short; the first such counts.
   */
  lemma {:induction false} ConnectIff(closes: seq<nat>, attempts: seq<Attempt>, s: nat, max: nat)
    requires s <= max <= |attempts|
    ensures var c := Connect(closes, attempts, s, max);
            && (c.client.Some? <==> exists i | s <= i < max :: FirstGood(attempts, s, i))
            && (forall i | s <= i < max && FirstGood(attempts, s, i) ::
                  c.client == Some(|closes| + (i - s)) && c.tools == attempts[i].tools)
    decreases max - s
  {
    if s < max {
      if attempts[s].ctxDone || (s > 0 && attempts[s].waitCancelled) {
        assert forall i: nat :: !FirstGood(attempts, s, i);
      } else if Good(attempts[s]) {
        assert FirstGood(attempts, s, s) && forall i: nat :: FirstGood(attempts, s, i) ==> i == s;
      } else {
        ConnectIff(closes + [1], attempts, s + 1, max);
        assert Connect(closes, attempts, s, max) == Connect(closes + [1], attempts, s + 1, max);
        forall i: nat
          ensures FirstGood(attempts, s, i) <==> FirstGood(attempts, s + 1, i)
        {
        }
        assert !FirstGood(attempts, s, s);
        hide FirstGood, Connect;
        LaterFirst(attempts, s, s + 1, max);
      }
    }
  }

  lemma LaterFirst(attempts: seq<Attempt>, s: nat, next: nat, max: nat)
    requires s < next && forall i: nat :: FirstGood(attempts, s, i) <==> FirstGood(attempts, next, i)
    ensures (exists i | next <= i < max :: FirstGood(attempts, next, i))
        ==> exists i | s <= i < max :: FirstGood(attempts, s, i)
  {
    if i: nat :| next <= i < max && FirstGood(attempts, next, i) {
      assert FirstGood(attempts, s, i);
    }
  }

  lemma {:induction false} RegisterShape(reg: Registry, names: seq<string>, client: nat)
    ensures var r := Register(reg, names, client);
            && (forall n <- names :: ValidName(n) ==> n in r && r[n] == Vault(client))
            && (forall n <- r :: n in reg || n in names)
            && (forall n <- r :: (n in names && ValidName(n)) || (n in reg && r[n] == reg[n]))
            && (forall n <- reg :: n in r)
    decreases |names|
  {
    if names != [] {
      RegisterShape(reg, names[..|names| - 1], client);
      assert forall n <- names :: n in names[..|names| - 1] || n == names[|names| - 1];
    }
  }

  lemma CloseKeepsInv(s: State)
    requires Inv(s)
    ensures Inv(Closed(s)) && Closed(s).current.None?
  {
  }

  lemma ReconnectKeepsInv(s: State, attempts: seq<Attempt>)
    requires Inv(s) && |attempts| >= VAULT_MAX_ATTEMPTS
    ensures Inv(Reconnected(s, attempts))
  {
    var down := Closed(s);
    CloseKeepsInv(s);
    ConnectShape(down.closes, attempts, 0, VAULT_MAX_ATTEMPTS);
    var c := Connect(down.closes, attempts, 0, VAULT_MAX_ATTEMPTS);
    if c.client.Some? {
      RegisterShape(down.registry, c.tools, c.client.value);
    }
  }

  // ---------------------------------------------------------------- runs

  datatype Op = TryReconnect(locked: bool, attempts: seq<Attempt>) | CloseAll | EmitWarnOnce

  predicate OpOk(op: Op) { op.TryReconnect? ==> |op.attempts| >= VAULT_MAX_ATTEMPTS }

  /** A caller that loses the TryLock race changes nothing. */
  function Apply(s: State, op: Op): State
    requires OpOk(op)
  {
    match op
    case TryReconnect(locked, attempts) => if locked then s else Reconnected(s, attempts)
    case CloseAll => Closed(s)
    case EmitWarnOnce => Warned(s)
  }

  function Run(s: State, ops: seq<Op>): State
    requires forall op <- ops :: OpOk(op)
  {
    if ops == [] then s else Apply(Run(s, ops[..|ops| - 1]), ops[|ops| - 1])
  }

  /** The session right after its first connection: builtin tools plus those of client 0's vault. */
  function Opened(builtins: set<string>, closes: seq<nat>, names: seq<string>): State {
    Session(Register(map n | n in builtins :: Builtin, names, |closes|), names, Some(|closes|), closes + [0], false,
        0, 1)
  }

  lemma {:induction false} RunKeepsInv(s: State, ops: seq<Op>)
    requires Inv(s) && forall op <- ops :: OpOk(op)
    ensures Inv(Run(s, ops))
    ensures |Run(s, ops).closes| <= |s.closes| + VAULT_MAX_ATTEMPTS * |ops|
    decreases |ops|
  {
    if ops != [] {
      var op := ops[|ops| - 1];
      assert op in ops;
      var before := Run(s, ops[..|ops| - 1]);
      RunKeepsInv(s, ops[..|ops| - 1]);
      if op.TryReconnect? {
        ReconnectKeepsInv(before, op.attempts);
        ConnectShape(Closed(before).closes, op.attempts, 0, VAULT_MAX_ATTEMPTS);
      } else if op.CloseAll? {
        CloseKeepsInv(before);
      }
    }
  }

  /**
   After any sequence of reconnects, lost races, warnings and closes: no client is closed
   twice, only the current one is open, the vault tools are those it listed, and there were
   at most as many warnings as connections.
   */
  lemma SessionConserves(builtins: set<string>, closes: seq<nat>, names: seq<string>, ops: seq<Op>)
    requires (forall c <- closes :: c == 1) && forall op <- ops :: OpOk(op)
    ensures var s := Run(Opened(builtins, closes, names), ops);
            && (forall c: nat | c < |s.closes| :: s.closes[c] == if s.current == Some(c) then 0 else 1)
            && (forall n :: n in s.registry && s.registry[n].Vault? <==> n in s.toolNames && ShortAscii(n))
            && (forall n <- s.registry :: s.registry[n].Vault? ==> s.current == Some(s.registry[n].client))
            && s.warnings <= s.connections
  {
    var s := Opened(builtins, closes, names);
    RegisterShape(map n | n in builtins :: Builtin, names, |closes|);
    assert forall c: nat | c < |closes| :: closes[c] in closes;
    assert Inv(s);
    RunKeepsInv(s, ops);
    forall n: string
      ensures ShortAscii(n) <==> ValidName(n)
    {
      ValidNameIff(n);
    }
    hide ShortAscii, ValidName;
  }

  lemma ValidNameIff(n: string)
    ensures ShortAscii(n) <==> ValidName(n)
  {
    if ShortAscii(n) {
      forall c <- n
        ensures 'a' <= c <= 'z' || 'A' <= c <= 'Z' || '0' <= c <= '9' || c == '_' || c == '-'
      {
        var i :| 0 <= i < |n| && n[i] == c;
      }
    }
    if ValidName(n) {
      assert forall i | 0 <= i < |n| :: n[i] in n;
    }
  }

  /** 1 to 64 digits, letters, underscores and hyphens. */
  predicate ShortAscii(n: string) {
    && 0 < |n| < 65
    && forall i | 0 <= i < |n| ::
         var c := n[i] as int; c == 45 || 48 <= c <= 57 || 65 <= c <= 90 || c == 95 || 97 <= c <= 122
  }

  function NamesOf(s: State): set<string> { set n | n in s.toolNames }

  /** Every name any vault of the session ever listed. */
  function EverListed(s: State, ops: seq<Op>): set<string>
    requires forall op <- ops :: OpOk(op)
  {
    NamesOf(Run(s, ops)) + if ops == [] then {} else EverListed(s, ops[..|ops| - 1])
  }

  /** A name is listed now, or was listed and is off the registry, or was never listed and is as it was. */
  ghost predicate NameOk(s: State, listed: set<string>, builtins: set<string>, n: string) {
    && (n in s.toolNames ==> n in listed)
    && (n in listed ==> n in s.toolNames || n !in s.registry)
    && (n !in listed ==> (n in s.registry <==> n in builtins) && (n in s.registry ==> s.registry[n] == Builtin))
  }

  lemma CloseKeepsName(s: State, listed: set<string>, builtins: set<string>, n: string)
    requires NameOk(s, listed, builtins, n)
    ensures NameOk(Closed(s), listed, builtins, n) && (n in listed ==> n !in Closed(s).registry)
  {
  }

  lemma ReconnectKeepsName(s: State, attempts: seq<Attempt>, listed: set<string>, builtins: set<string>, n: string)
    requires NameOk(s, listed, builtins, n) && |attempts| >= VAULT_MAX_ATTEMPTS
    ensures var s' := Reconnected(s, attempts); NameOk(s', listed + NamesOf(s'), builtins, n)
  {
    var down := Closed(s);
    CloseKeepsName(s, listed, builtins, n);
    var c := Connect(down.closes, attempts, 0, VAULT_MAX_ATTEMPTS);
    if c.client.Some? {
      RegisterShape(down.registry, c.tools, c.client.value);
    }
  }

  lemma {:induction false} NamesOverRun(s: State, ops: seq<Op>, builtins: set<string>, n: string)
    requires NameOk(s, NamesOf(s), builtins, n) && forall op <- ops :: OpOk(op)
    ensures NameOk(Run(s, ops), EverListed(s, ops), builtins, n)
    decreases |ops|
  {
    hide NameOk, Connect, Register, Unregister;
    if ops == [] {
      assert EverListed(s, ops) == NamesOf(s);
    } else {
      var op, before, listed := ops[|ops| - 1], Run(s, ops[..|ops| - 1]), EverListed(s, ops[..|ops| - 1]);
      assert op in ops;
      NamesOverRun(s, ops[..|ops| - 1], builtins, n);
      if op.TryReconnect? && !op.locked {
        ReconnectKeepsName(before, op.attempts, listed, builtins, n);
        assert EverListed(s, ops) == listed + NamesOf(Run(s, ops));
      } else {
        CurrentIsListed(s, ops[..|ops| - 1]);
        CloseKeepsName(before, listed, builtins, n);
        SameNames(before, Run(s, ops), listed, builtins, n);
        assert EverListed(s, ops) == listed;
      }
    }
  }

  lemma CurrentIsListed(s: State, ops: seq<Op>)
    requires forall op <- ops :: OpOk(op)
    ensures forall n <- Run(s, ops).toolNames :: n in EverListed(s, ops)
  {
  }

  lemma SameNames(s: State, s': State, listed: set<string>, builtins: set<string>, n: string)
    requires NameOk(s, listed, builtins, n) && ((s'.registry == s.registry && s'.toolNames == s.toolNames)
        || s' == Closed(s))
    ensures NameOk(s', listed, builtins, n)
  {
  }

  /** However the session went: once it is closed, a builtin is left exactly if no vault ever listed its name. */
  lemma {:induction false} BuiltinsAfterClose(builtins: set<string>, closes: seq<nat>, names: seq<string>,
      ops: seq<Op>, n: string)
    requires n in builtins && forall op <- ops :: OpOk(op)
    ensures var s := Opened(builtins, closes, names);
            && (n in Closed(Run(s, ops)).registry <==> n !in EverListed(s, ops))
            && (n !in EverListed(s, ops) ==> Closed(Run(s, ops)).registry[n] == Builtin)
  {
    var s := Opened(builtins, closes, names);
    RegisterShape(map m | m in builtins :: Builtin, names, |closes|);
    assert NameOk(s, NamesOf(s), builtins, n);
    NamesOverRun(s, ops, builtins, n);
    CloseKeepsName(Run(s, ops), EverListed(s, ops), builtins, n);
  }

  lemma OneOfTwo(attempts: seq<Attempt>)
    requires |attempts| >= VAULT_MAX_ATTEMPTS
    ensures (exists i | 0 <= i < VAULT_MAX_ATTEMPTS :: FirstGood(attempts, 0, i))
       <==> FirstGood(attempts, 0, 0) || FirstGood(attempts, 0, 1)
  {
    hide FirstGood;
    if i: nat :| i < VAULT_MAX_ATTEMPTS && FirstGood(attempts, 0, i) {
      assert i == 0 || i == 1;
    }
  }

  // ---------------------------------------------------------------- one warning a connection

  /** A warning was asked for when there had been c connections. */
  ghost predicate WarnedAt(s: State, ops: seq<Op>, c: nat)
    requires forall op <- ops :: OpOk(op)
  {
    exists j | 0 <= j < |ops| :: ops[j].EmitWarnOnce? && Run(s, ops[..j]).connections == c
  }

  /** A warning was asked for since the last connection. */
  ghost predicate WarnedSince(s: State, ops: seq<Op>)
    requires forall op <- ops :: OpOk(op)
  {
    WarnedAt(s, ops, Run(s, ops).connections)
  }

  lemma {:induction false} ConnectionsGrow(s: State, ops: seq<Op>, j: nat)
    requires (forall op <- ops :: OpOk(op)) && j <= |ops|
    ensures Run(s, ops[..j]).connections <= Run(s, ops).connections
    decreases |ops|
  {
    if j == |ops| {
      assert ops[..j] == ops;
    } else {
      assert ops[..|ops| - 1][..j] == ops[..j] && ops[|ops| - 1] in ops;
      ConnectionsGrow(s, ops[..|ops| - 1], j);
    }
  }

  lemma WarnedAtStep(s: State, ops: seq<Op>, c: nat)
    requires ops != [] && forall op <- ops :: OpOk(op)
    ensures var front := ops[..|ops| - 1];
            && (WarnedAt(s, ops, c) <==>
                  WarnedAt(s, front, c) || (ops[|ops| - 1].EmitWarnOnce? && Run(s, front).connections == c))
            && (WarnedAt(s, front, c) ==> c <= Run(s, front).connections)
  {
    hide Run, Apply;
    var front := ops[..|ops| - 1];
    assert ops[..|front|] == front;
    forall j: nat | j < |front|
      ensures ops[j] == front[j] && ops[..j] == front[..j]
          && Run(s, front[..j]).connections <= Run(s, front).connections
    {
      ConnectionsGrow(s, front, j);
    }
    if j: nat :| j < |front| && front[j].EmitWarnOnce? && Run(s, front[..j]).connections == c {
      assert ops[j].EmitWarnOnce? && Run(s, ops[..j]).connections == c;
    }
  }

  lemma {:induction false} WarnedIff(s: State, ops: seq<Op>)
    requires !s.warned && forall op <- ops :: OpOk(op)
    ensures Run(s, ops).warned <==> WarnedSince(s, ops)
    decreases |ops|
  {
    if ops != [] {
      var front, op := ops[..|ops| - 1], ops[|ops| - 1];
      assert op in ops;
      WarnedIff(s, front);
      WarnedAtStep(s, ops, Run(s, ops).connections);
      WarnsOrConnects(Run(s, front), op);
      hide Apply, WarnedAt;
    }
  }

  /** What one operation does to the flag and the count. */
  lemma WarnsOrConnects(s: State, op: Op)
    requires OpOk(op)
    ensures var s' := Apply(s, op);
            && (op.EmitWarnOnce? ==> s'.warned && s'.connections == s.connections)
            && (!op.EmitWarnOnce? ==>
                  || (s'.warned == s.warned && s'.connections == s.connections)
                  || (!s'.warned && s'.connections == s.connections + 1))
  {
    hide Connect, Register, Unregister;
  }

  /**
   In every session a warning fires exactly if none was asked for since the last connection,
   and connections are the successes.
   */
  lemma WarnsOncePerConnection(builtins: set<string>, closes: seq<nat>, names: seq<string>, ops: seq<Op>, op: Op)
    requires (forall o <- ops :: OpOk(o)) && OpOk(op)
    ensures var s := Opened(builtins, closes, names);
            var before, after := Run(s, ops), Apply(Run(s, ops), op);
            && after.warnings == before.warnings + (if op.EmitWarnOnce? && !WarnedSince(s, ops) then 1 else 0)
            && after.connections == before.connections
               + if op.TryReconnect? && !op.locked && (FirstGood(op.attempts, 0, 0) || FirstGood(op.attempts, 0, 1))
                   then 1 else 0
  {
    var s := Opened(builtins, closes, names);
    WarnedIff(s, ops);
    if op.TryReconnect? && !op.locked {
      var down := Closed(Run(s, ops));
      ConnectIff(down.closes, op.attempts, 0, VAULT_MAX_ATTEMPTS);
      hide Connect, Register, Unregister, Run, WarnedSince;
    }
  }

  lemma CurrentIsBuilt(s: State)
    requires Inv(s)
    ensures s.current.Some? ==> s.current.value < |s.closes|
  {
  }

  lemma NothingWithoutClient(s: State)
    requires Inv(s) && s.current.None?
    ensures s.toolNames == [] && forall n <- s.registry :: s.registry[n].Builtin?
  {
  }

  // ---------------------------------------------------------------- the object

  class Reconnector {
    var registry: Registry
    var toolNames: seq<string>
    var current: Option<nat>
    var closes: seq<nat>
    var warned: bool
    ghost var warnings: nat
    ghost var connections: nat

    ghost function State(): State reads this {
      Session(registry, toolNames, current, closes, warned, warnings, connections)
    }

    /** newVaultReconnector, after the first connection's tools were registered. */
    constructor (s: State)
      requires !s.warned && s.warnings == 0 && s.connections == 1
      ensures State() == s
    {
      registry, toolNames, current, closes, warned := s.registry, s.toolNames, s.current, s.closes, false;
      warnings, connections := 0, 1;
    }

    /** Retries connect-and-list; every client that fails either is closed before the next try. */
    method ConnectVaultWithRetry(attempts: seq<Attempt>, maxAttempts: int)
      returns (client: Option<nat>, tools: seq<string>)
      requires |attempts| >= maxAttempts
      modifies this`closes
      ensures maxAttempts > 0 ==> Connection(closes, client, tools) == Connect(old(closes), attempts, 0, maxAttempts)
      ensures maxAttempts <= 0 ==> closes == old(closes) && client.None?
      ensures |closes| <= |old(closes)| + (if maxAttempts > 0 then maxAttempts else 0)
      ensures client.Some? <==> exists i | 0 <= i < maxAttempts :: FirstGood(attempts, 0, i)
      ensures forall i | 0 <= i < maxAttempts && FirstGood(attempts, 0, i) ::
                client == Some(|old(closes)| + i) && tools == attempts[i].tools
      ensures forall k | |old(closes)| <= k < |closes| :: closes[k] == if client == Some(k) then 0 else 1
    {
      if maxAttempts <= 0 {
        return None, [];
      }
      ConnectShape(closes, attempts, 0, maxAttempts);
      ConnectIff(closes, attempts, 0, maxAttempts);
      var i := 0;
      while i < maxAttempts
        invariant 0 <= i <= maxAttempts
        invariant Connect(closes, attempts, i, maxAttempts) == Connect(old(closes), attempts, 0, maxAttempts)
      {
        if attempts[i].ctxDone {
          return None, [];
        }
        if i > 0 && attempts[i].waitCancelled {
          return None, [];
        }
        var built := |closes|;
        closes := closes + [0];
        if !attempts[i].initOk || !attempts[i].listOk {
          closes := closes[built := closes[built] + 1];
          assert closes == closes[..built] + [1];
          i := i + 1;
          continue;
        }
        return Some(built), attempts[i].tools;
      }
      return None, [];
    }

    method UnregisterAll()
      modifies this`registry, this`toolNames
      ensures registry == Unregister(old(registry), old(toolNames)) && toolNames == []
    {
      for i := 0 to |toolNames|
        invariant toolNames == old(toolNames)
        invariant registry == Unregister(old(registry), toolNames[..i])
      {
        assert forall n :: n in toolNames[..i + 1] <==> n in toolNames[..i] || n == toolNames[i];
        registry := registry - {toolNames[i]};
      }
      assert toolNames[..|toolNames|] == toolNames;
      toolNames := [];
    }

    method CloseCurrent()
      requires current.Some? ==> current.value < |closes|
      modifies this`current, this`closes
      ensures current.None?
      ensures closes == if old(current).Some?
                        then old(closes)[old(current).value := old(closes)[old(current).value] + 1]
                        else old(closes)
    {
      if current.Some? {
        closes := closes[current.value := closes[current.value] + 1];
        current := None;
      }
    }

    method TryReconnect(locked: bool, attempts: seq<Attempt>) returns (ok: bool)
      requires Inv(State()) && |attempts| >= VAULT_MAX_ATTEMPTS
      modifies this
      ensures Inv(State()) && State() == Apply(old(State()), Op.TryReconnect(locked, attempts))
      ensures ok <==> !locked && current.Some?
      ensures ok <==> !locked && (FirstGood(attempts, 0, 0) || FirstGood(attempts, 0, 1))
      ensures ok ==> toolNames == attempts[if FirstGood(attempts, 0, 0) then 0 else 1].tools
      ensures !ok && !locked ==> toolNames == [] && forall n <- registry :: registry[n].Builtin?
    {
      if locked {
        return false;
      }
      hide Inv, Unregister, Register, Connect, FirstGood;
      ghost var was := State();
      OneOfTwo(attempts);
      CurrentIsBuilt(was);
      ReconnectKeepsInv(was, attempts);
      CloseKeepsInv(was);
      UnregisterAll();
      CloseCurrent();
      ghost var down := State();
      assert down == Closed(was);
      var client, tools := ConnectVaultWithRetry(attempts, VAULT_MAX_ATTEMPTS);
      if client.None? {
        assert State() == Reconnected(was, attempts);
        NothingWithoutClient(State());
        return false;
      }
      RegisterAll(tools, client.value);
      current := client;
      warned := false;
      connections := connections + 1;
      assert State() == Reconnected(was, attempts);
      return true;
    }

    method RegisterAll(names: seq<string>, client: nat)
      modifies this`registry, this`toolNames
      ensures registry == Register(old(registry), names, client) && toolNames == names
    {
      for i := 0 to |names|
        invariant registry == Register(old(registry), names[..i], client)
      {
        assert names[..i + 1][..i] == names[..i];
        if ValidName(names[i]) {
          registry := registry[names[i] := Vault(client)];
        }
      }
      assert names[..|names|] == names;
      toolNames := names;
    }

    method Close()
      requires Inv(State())
      modifies this
      ensures Inv(State()) && State() == Closed(old(State())) && current.None?
    {
      CloseKeepsInv(State());
      UnregisterAll();
      CloseCurrent();
    }

    method EmitWarnOnce() returns (fired: bool)
      requires Inv(State())
      modifies this`warned, this`warnings
      ensures Inv(State()) && State() == Warned(old(State())) && fired == !old(warned)
    {
      fired := !warned;
      if fired {
        warned := true;
        warnings := warnings + 1;
      }
    }
  }
}
