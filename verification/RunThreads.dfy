/**
 What becomes of the threads a run delegates to (internal/agent/loop.go, `RunLoop`). A lead
 that stops on its own words is held up by one barrier, a synthetic wait for its threads,
 unless it has waited before; a wait made before the delegation counts, too.
 */
module RunThreads {
  import opened Backend
  import opened Options
  import opened RunHistory
  import opened RunLaws

  // ---------------------------------------------------------------- waits and delegations in a history

  /** The k-th answer of the i-th event reports a successful delegation. */
  predicate DelegatesAt(h: History, i: nat, k: nat) {
    && i < |h| && h[i].Work? && k < |h[i].results|
    && h[i].results[k].call.name == "delegate_to_agent" && !("error:" <= h[i].results[k].content)
  }

  /** The l-th answer of the j-th event is that of a wait; a barrier is one answer. */
  predicate WaitsAt(h: History, j: nat, l: nat) {
    && j < |h|
    && ((h[j].Work? && l < |h[j].results| && h[j].results[l].call.name == "wait_for_threads")
        || (h[j].AutoWait? && l == 0))
  }

  predicate Before(i: nat, k: nat, j: nat, l: nat) { i < j || (i == j && k < l) }

  ghost predicate WaitAfter(h: History, i: nat, k: nat) { exists j, l :: WaitsAt(h, j, l) && Before(i, k, j, l) }

  ghost predicate WaitBefore(h: History, i: nat, k: nat) { exists j, l :: WaitsAt(h, j, l) && Before(j, l, i, k) }

  lemma {:induction false} LastOfIff(p: Dispatched -> bool, rs: seq<Dispatched>)
    ensures LastOf(p, rs).Some? <==> exists k | 0 <= k < |rs| :: p(rs[k])
  {
    if rs != [] {
      var front := rs[..|rs| - 1];
      LastOfIff(p, front);
      if k :| 0 <= k < |rs| && p(rs[k]) {
        assert k == |rs| - 1 || p(front[k]);
      }
      if k :| 0 <= k < |front| && p(front[k]) {
        assert p(rs[k]);
      }
    }
  }

  lemma LastWaitIff(rs: seq<Dispatched>)
    ensures LastWait(rs).Some? <==> exists l | 0 <= l < |rs| :: Waits(rs[l])
  {
    LastOfIff(r => Waits(r), rs);
  }

  lemma LastDelegationIff(rs: seq<Dispatched>)
    ensures LastDelegation(rs).Some? <==> exists k | 0 <= k < |rs| :: Delegates(rs[k])
  {
    LastOfIff(r => Delegates(r), rs);
  }

  /** The flags of the loop together say whether there was any wait. */
  lemma {:induction false} WaitedIff(h: History)
    ensures Waited(h) || AutoWaited(h) <==> exists j, l :: WaitsAt(h, j, l)
    decreases |h|
  {
    hide LastWait;
    if h != [] {
      var f := Front(h);
      WaitedIff(f);
      if Last(h).Work? {
        LastWaitIff(Last(h).results);
      }
      forall j: nat, l: nat
        ensures WaitsAt(h, j, l) <==> WaitsAt(f, j, l) || (j == |h| - 1 && WaitsAt(h, |h| - 1, l))
      {
      }
      if Last(h).Work? {
        forall l: nat
          ensures WaitsAt(h, |h| - 1, l) <==> l < |Last(h).results| && Waits(Last(h).results[l])
        {
        }
      } else if Last(h).AutoWait? {
        assert WaitsAt(h, |h| - 1, 0);
      }
    }
  }

  lemma {:induction false} DelegatedIff(h: History)
    ensures Delegated(h) <==> exists i, k :: DelegatesAt(h, i, k)
    decreases |h|
  {
    hide LastDelegation;
    if h != [] {
      var f := Front(h);
      DelegatedIff(f);
      if Last(h).Work? {
        LastDelegationIff(Last(h).results);
      }
      forall i: nat, k: nat
        ensures DelegatesAt(h, i, k) <==> DelegatesAt(f, i, k) || (i == |h| - 1 && DelegatesAt(h, |h| - 1, k))
      {
      }
      if Last(h).Work? {
        forall k: nat
          ensures DelegatesAt(h, |h| - 1, k) <==> k < |Last(h).results| && Delegates(Last(h).results[k])
        {
        }
      }
    }
  }

  // ---------------------------------------------------------------- regular stops

  /** Some delegation or consultation was refused at the company wall. */
  predicate Walled(w: World, h: History) {
    h != [] && ((Last(h).Work? && LastDeny(w, Last(h).results).Some?) || Walled(w, Front(h)))
  }

  lemma {:induction false} CollectingIsWaiting(w: World, rs: seq<Dispatched>)
    ensures LastCollected(rs).Some? || LastAnswer(w, rs).Some? ==> LastWait(rs).Some?
  {
    hide ThreadsFinished, KindOf;
    if rs != [] {
      CollectingIsWaiting(w, rs[..|rs| - 1]);
    }
  }

  lemma {:induction false} CollectedWasWaited(w: World, h: History)
    requires Collected(h)
    ensures Waited(h) || AutoWaited(h)
    decreases |h|
  {
    hide LastCollected, LastWait, ThreadsFinished;
    if CollectsNow(Last(h)) {
      if Last(h).Work? {
        CollectingIsWaiting(w, Last(h).results);
      }
    } else {
      CollectedWasWaited(w, Front(h));
    }
  }

  lemma SpeechFollowsWork(w: World, cfg: Config, h: History)
    requires Follows(w, cfg, h) && h != [] && Last(h).Speech?
    ensures SpeechOnly(w, h)
  {
    hide Follows, NextMove, TurnCount, CollectsNow, WorksNow;
    FollowsFront(w, cfg, h);
    var p := Front(h);
    FollowsFront(w, cfg, p);
    assert Last(p).Hint? && SpeechOnly(w, Front(p));
    assert SpeechOnly(w, p);
  }

  lemma DirectFollowsWall(w: World, cfg: Config, h: History)
    requires Follows(w, cfg, h) && h != [] && Last(h).Direct?
    ensures Walled(w, h)
  {
    FollowsFront(w, cfg, h);
    hide Follows, NextMove, TurnCount, Dispatches, FinalContent, Transcript, Ask, LastAnswer, LastDeny, DirectText,
        Admits, SpeechOnly;
    DirectMeansDeny(w, cfg, Front(h));
  }

  lemma DirectMeansDeny(w: World, cfg: Config, h: History)
    requires h != [] && Last(h).Work? && NextMove(w, cfg, h).Emit? && NextMove(w, cfg, h).event.Direct?
    ensures LastDeny(w, Last(h).results).Some?
  {
    hide TurnCount, FinalContent, Transcript, Ask, LastAnswer, LastDeny, DirectText, SpeechOnly, SpeechText, Dispatches;
  }

  /**
   At a regular stop, with the barrier available, some wait was made if anything was delegated,
   or the work was done, or the wall was hit.
   */
  lemma {:induction false} StopNeedsWait(w: World, cfg: Config, h: History, v: Verdict)
    requires Follows(w, cfg, h) && NextMove(w, cfg, h) == Stop(v) && v.reason == Stopped
    requires Delegated(h) && CanAutoWait(cfg)
    ensures Waited(h) || AutoWaited(h) || Worked(w, h) || Walled(w, h)
  {
    if Last(h).Speech? {
      SpeechFollowsWork(w, cfg, h);
      if Collected(h) {
        CollectedWasWaited(w, h);
      }
    } else if Last(h).Direct? {
      DirectFollowsWall(w, cfg, h);
    } else if Last(h).Work? {
      CollectingIsWaiting(w, Last(h).results);
      StopAfterWork(w, cfg, h, v);
    } else {
      OtherStops(w, cfg, h, v);
    }
  }

  lemma StopAfterWork(w: World, cfg: Config, h: History, v: Verdict)
    requires h != [] && Last(h).Work? && NextMove(w, cfg, h) == Stop(v) && v.reason == Stopped
    ensures LastDeny(w, Last(h).results).Some? || LastAnswer(w, Last(h).results).Some?
  {
    hide TurnCount, FinalContent, Transcript, Ask, LastAnswer, LastDeny, DirectText, SpeechOnly, SpeechText, Dispatches;
  }

  lemma OtherStops(w: World, cfg: Config, h: History, v: Verdict)
    requires h != [] && !Last(h).Speech? && !Last(h).Direct? && !Last(h).Work? && NextMove(w, cfg, h) == Stop(v)
        && v.reason == Stopped
    requires Delegated(h) && CanAutoWait(cfg)
    ensures Waited(h) || AutoWaited(h)
  {
    hide TurnCount, FinalContent, Transcript, Ask, SpeechOnly, SpeechText, Dispatches, Delegated, Waited, Nudges,
        MalformedRun, BeforeWait, ThreadsFinished;
  }

  predicate RegularStop(m: Move) { m.Stop? && m.verdict.reason == Stopped }

  /**
   With the barrier available, every successful delegation of a run that came to a regular
   stop has a wait after it or a wait before it, unless a shell command did the work or the
   wall was hit. So nothing delegated ahead of the first wait goes uncollected.
   */
  lemma {:induction false} NoThreadIsAbandoned(w: World, cfg: Config, h: History, i: nat, k: nat)
    requires Follows(w, cfg, h) && RegularStop(NextMove(w, cfg, h)) && DelegatesAt(h, i, k) && CanAutoWait(cfg)
    ensures WaitAfter(h, i, k) || WaitBefore(h, i, k) || Worked(w, h) || Walled(w, h)
  {
    hide NextMove, Follows, Delegated, Waited, AutoWaited, Worked, Walled;
    DelegatedIff(h);
    StopNeedsWait(w, cfg, h, NextMove(w, cfg, h).verdict);
    WaitedIff(h);
    if j: nat, l: nat :| WaitsAt(h, j, l) {
      assert (j, l) != (i, k);
      assert Before(i, k, j, l) || Before(j, l, i, k);
    }
  }

  // ---------------------------------------------------------------- what the barrier guarantees from a dispatch on

  ghost predicate WaitSince(h: History, n: nat) { exists j, l :: WaitsAt(h, j, l) && n <= j }

  /** In every world that leads to p, every regular stop after p without shell work or wall has a wait in between. */
  ghost predicate AlwaysCollected(cfg: Config, p: History) {
    forall w: World, h: History |
      p <= h && Follows(w, cfg, h) && RegularStop(NextMove(w, cfg, h)) && !Worked(w, h) && !Walled(w, h) ::
          WaitSince(h, |p|)
  }

  /** The length of what the model answers next, as it comes and with tool calls taken out. */
  function Heard(w: World, cfg: Config, h: History): nat {
    var c := w.complete(TurnCount(h), Transcript(cfg, h), cfg.schemas);
    if c.response.None? then 0 else |c.response.value.content| + |w.promote(c.response.value, cfg.schemas).0|
  }

  /** No text said or heard so far is longer. */
  function Bulk(w: World, cfg: Config, h: History): nat {
    Heard(w, cfg, h) + if h == [] then 0 else Bulk(w, cfg, Front(h)) + if Last(h).Turn? then |Last(h).said| else 0
  }

  lemma {:induction false} BulkBounds(w: World, cfg: Config, h: History)
    ensures |FinalContent(h)| <= Bulk(w, cfg, h) && |BeforeWait(h)| <= Bulk(w, cfg, h)
    decreases |h|
  {
    hide Heard, AutoWaited;
    if h != [] {
      BulkBounds(w, cfg, Front(h));
    }
  }

  lemma {:induction false} BulkGrows(w: World, cfg: Config, h: History, n: nat)
    requires n <= |h|
    ensures Bulk(w, cfg, h[..n]) <= Bulk(w, cfg, h)
    decreases |h|
  {
    hide Heard;
    if n == |h| {
      assert h[..n] == h;
    } else {
      BulkGrows(w, cfg, Front(h), n);
      assert Front(h)[..n] == h[..n];
    }
  }

  /**
   The same world until the n-th completion, whose answer is a new text: nothing is cancelled,
   waits answer, and that text is left as it is.
   */
  function Ending(w: World, text: string, n: nat): World {
    w.(complete := (m: nat, messages: seq<Message>, schemas: seq<string>) =>
         if m == n then Completion([], false, Some(Response(text, [], 0))) else w.complete(m, messages, schemas),
       promote := (r: Response, schemas: seq<string>) => if r.content == text then (text, [])
           else w.promote(r, schemas),
       afterTools := (content, ask) => if content == text then text else w.afterTools(content, ask),
       unfinished := s => s != text && w.unfinished(s),
       cancels := _ => false,
       hasAnswer := _ => true)
  }

  lemma {:induction false} SameLastOf(p: Dispatched -> bool, q: Dispatched -> bool, rs: seq<Dispatched>)
    requires forall r <- rs :: p(r) == q(r)
    ensures LastOf(p, rs) == LastOf(q, rs)
  {
    if rs != [] {
      SameLastOf(p, q, rs[..|rs| - 1]);
    }
  }

  /** A world that trims alike and refuses alike asks the same questions of the past. */
  lemma {:induction false} SamePast(w: World, v: World, h: History)
    requires w.trim == v.trim && w.isWallDeny == v.isWallDeny
    ensures Worked(w, h) == Worked(v, h) && Walled(w, h) == Walled(v, h)
    decreases |h|
  {
    hide KindOf;
    if h != [] {
      SamePast(w, v, Front(h));
      if Last(h).Work? {
        SameLastOf(r => DoesWork(w, r), r => DoesWork(v, r), Last(h).results);
        SameLastOf(r => Denies(w, r), r => Denies(v, r), Last(h).results);
      }
    }
  }

  lemma {:induction false} SameAsk(w: World, v: World, messages: seq<Message>)
    requires w.trim == v.trim
    ensures Ask(w, messages) == Ask(v, messages)
  {
    if messages != [] {
      SameAsk(w, v, messages[..|messages| - 1]);
    }
  }

  /** Once every wait answers, the last answer is the last finished thread. */
  lemma AllAnswer(w: World, rs: seq<Dispatched>)
    ensures LastAnswer(w, rs).Some? ==> LastCollected(rs).Some?
    ensures (forall s :: w.hasAnswer(s)) ==> LastAnswer(w, rs) == LastCollected(rs)
  {
    hide KindOf, ThreadsFinished;
    LastOfIff(r => Answers(w, r), rs);
    LastOfIff(r => Collects(r), rs);
    if forall s :: w.hasAnswer(s) {
      SameLastOf(r => Answers(w, r), r => Collects(r), rs);
    }
  }

  predicate Plain(e: Event) { e.Turn? || e.Retry? || e.Work? || e.AutoWait? || e.Nudge? }

  lemma {:induction false} PlainPast(w: World, cfg: Config, h: History)
    requires Follows(w, cfg, h) && (AtTop(h) || Last(h).Turn?)
    ensures forall e <- h :: Plain(e)
    decreases |h|
  {
    hide Follows, NextMove, TurnCount, SpeechOnly, Delegated, Waited, AutoWaited, Nudges, Dispatches, MalformedRun,
        ResultsOf;
    if h != [] {
      FollowsFront(w, cfg, h);
      PlainPast(w, cfg, Front(h));
      assert h == Front(h) + [Last(h)];
    }
  }

  lemma {:induction false} NothingCollectedYet(h: History, n: nat)
    requires n <= |h| && !Collected(h)
    ensures !Collected(h[..n])
    decreases |h|
  {
    hide CollectsNow;
    if n == |h| {
      assert h[..n] == h;
    } else {
      NothingCollectedYet(Front(h), n);
      assert Front(h)[..n] == h[..n];
    }
  }

  lemma {:induction false} TurnsGrow(h: History, n: nat)
    requires n < |h|
    ensures TurnCount(h[..n]) <= TurnCount(h) && (h[n].Turn? ==> TurnCount(h[..n]) < TurnCount(h))
    decreases |h|
  {
    if n == |h| - 1 {
      assert h[..n] == Front(h);
    } else {
      TurnsGrow(Front(h), n);
      assert Front(h)[..n] == h[..n];
    }
  }

  /** Next move at the top of a turn: the same completion is asked for and read the same. */
  lemma SameTurn(w: World, cfg: Config, h: History, text: string, n: nat)
    requires NextTurn(w, cfg, h).Emit? && Plain(NextTurn(w, cfg, h).event)
    requires (NextTurn(w, cfg, h).event.Turn? ==> TurnCount(h) != n) && Heard(w, cfg, h) < |text|
    ensures NextTurn(Ending(w, text, n), cfg, h) == NextTurn(w, cfg, h)
  {
    hide TurnCount, Transcript, Collected, Worked, Dispatches, Ask;
    SamePast(w, Ending(w, text, n), h);
    SameAsk(w, Ending(w, text, n), Transcript(cfg, h));
  }

  lemma SameAfterTurn(w: World, cfg: Config, h: History, text: string, n: nat)
    requires h != [] && Last(h).Turn? && AfterTurn(w, cfg, h).Emit?
    requires |Last(h).said| < |text| && |BeforeWait(h)| < |text|
    ensures AfterTurn(Ending(w, text, n), cfg, h) == AfterTurn(w, cfg, h)
  {
    hide TurnCount, Transcript, MalformedRun, Dispatches, Delegated, Waited, AutoWaited, BeforeWait, Nudges, Resaid;
    var v := Ending(w, text, n);
    assert ResultsOf(w, Dispatches(h), Last(h).calls) == ResultsOf(v, Dispatches(h), Last(h).calls);
  }

  lemma SameAfterWait(w: World, cfg: Config, h: History, text: string, n: nat)
    requires h != [] && (Last(h).Work? || Last(h).AutoWait?) && NextMove(w, cfg, h).Emit?
        && Plain(NextMove(w, cfg, h).event)
    requires !Collected(h) && (NextMove(w, cfg, h).event.Turn? ==> TurnCount(h) != n) && Heard(w, cfg, h) < |text|
    ensures NextMove(Ending(w, text, n), cfg, h) == NextMove(w, cfg, h)
  {
    hide TurnCount, Transcript, Dispatches, Ask, Heard, KindOf, ThreadsFinished, FinalContent, DirectText, SpeechOnly,
        LastDeny, LastAnswer, LastCollected;
    var v := Ending(w, text, n);
    SameAsk(w, v, Transcript(cfg, h));
    if Last(h).Work? {
      AllAnswer(w, Last(h).results);
      AllAnswer(v, Last(h).results);
      SameLastDeny(w, v, Last(h).results);
    }
    SameTurn(w, cfg, h, text, n);
  }

  lemma SameLastDeny(w: World, v: World, rs: seq<Dispatched>)
    requires w.isWallDeny == v.isWallDeny
    ensures LastDeny(w, rs) == LastDeny(v, rs)
  {
    SameLastOf(r => Denies(w, r), r => Denies(v, r), rs);
  }

  lemma SameMove(w: World, cfg: Config, h: History, text: string, n: nat)
    requires NextMove(w, cfg, h).Emit? && Plain(NextMove(w, cfg, h).event)
    requires !Collected(h) && (NextMove(w, cfg, h).event.Turn? ==> TurnCount(h) != n) && Bulk(w, cfg, h) < |text|
    ensures NextMove(Ending(w, text, n), cfg, h) == NextMove(w, cfg, h)
  {
    hide NextTurn, BeforeWait, Collected, FinalContent, TurnCount, Transcript, Heard;
    hide AfterTurn, AfterWork, AfterAutoWait, SpeechText, Spoken;
    BulkBounds(w, cfg, h);
    if h != [] && Last(h).Turn? {
      SameAfterTurn(w, cfg, h, text, n);
    } else if h != [] && (Last(h).Work? || Last(h).AutoWait?) {
      SameAfterWait(w, cfg, h, text, n);
    } else if h == [] || Last(h).Retry? || Last(h).Nudge? {
      SameTurn(w, cfg, h, text, n);
    } else {
      NothingPlainFollows(w, cfg, h);
    }
  }

  lemma NothingPlainFollows(w: World, cfg: Config, h: History)
    requires h != [] && (Final(Last(h)) || Last(h).Hint?)
    ensures NextMove(w, cfg, h).Emit? ==> !Plain(NextMove(w, cfg, h).event)
  {
    hide SpeechText, Transcript, TurnCount, FinalContent;
  }

  /**
   A history that ends in a dispatch ran without finished threads before it, and its world can
   be exchanged for the ending one.
   */
  lemma {:induction false} SameHistory(w: World, cfg: Config, p: History, text: string)
    requires Follows(w, cfg, p) && p != [] && Last(p).Work? && Bulk(w, cfg, p) < |text|
    ensures Follows(Ending(w, text, TurnCount(p)), cfg, p)
    ensures !Collected(Front(p))
  {
    hide Follows, NextMove, TurnCount, Bulk, Collected, Delegated, Worked;
    var v, f := Ending(w, text, TurnCount(p)), Front(p);
    NothingBefore(w, cfg, p);
    PlainPast(w, cfg, p);
    forall i | 0 <= i < |p|
      ensures MadeMove(v, cfg, p, i)
    {
      FollowsPrefix(w, cfg, p, i);
      NothingCollectedYet(f, i);
      assert f[..i] == p[..i] && p[i] in p;
      BulkGrows(w, cfg, p, i);
      TurnsGrow(p, i);
      SameMove(w, cfg, p[..i], text, TurnCount(p));
    }
    Made(v, cfg, p);
  }

  lemma Made(w: World, cfg: Config, h: History)
    requires forall i | 0 <= i < |h| :: MadeMove(w, cfg, h, i)
    ensures Follows(w, cfg, h)
  {
  }

  lemma NothingBefore(w: World, cfg: Config, p: History)
    requires Follows(w, cfg, p) && p != [] && Last(p).Work?
    ensures !Collected(Front(p))
  {
    hide Follows, NextMove, TurnCount, ResultsOf;
    FollowsFront(w, cfg, p);
    FollowsFront(w, cfg, Front(p));
  }

  /** From a dispatch that neither hit the wall nor did shell work, the ending world stops without another wait. */
  lemma EndingStops(w: World, cfg: Config, p: History, text: string) returns (h: History)
    requires Follows(w, cfg, p) && p != [] && Last(p).Work? && Bulk(w, cfg, p) < |text|
    requires !Worked(w, p) && !Walled(w, p)
    requires Waited(p) || AutoWaited(p) || !CanAutoWait(cfg)
    requires TurnCount(p) < MaxTurns(cfg) || LastCollected(Last(p).results).Some?
    ensures var v := Ending(w, text, TurnCount(p));
            && p <= h && Follows(v, cfg, h) && RegularStop(NextMove(v, cfg, h)) && !Worked(v, h) && !Walled(v, h)
            && !WaitSince(h, |p|)
  {
    hide NextMove, Follows, TurnCount, Bulk, Worked, Walled, LastCollected, Waited, AutoWaited;
    var v := Ending(w, text, TurnCount(p));
    SameHistory(w, cfg, p, text);
    SamePast(w, v, p);
    if LastCollected(Last(p).results).Some? {
      h := p;
      StopsOnAnswer(v, cfg, p);
    } else {
      var e := Turn(text, [], 0);
      h := p + [e];
      SpeaksNext(w, cfg, p, text);
      OneMoreMove(v, cfg, p, e);
      StopsOnWords(w, cfg, p, text);
      SameAfterMore(v, p, e);
    }
  }

  lemma SameAfterMore(w: World, p: History, e: Event)
    requires e.Turn?
    ensures Worked(w, p + [e]) == Worked(w, p) && Walled(w, p + [e]) == Walled(w, p)
    ensures !WaitSince(p + [e], |p|)
  {
    assert Front(p + [e]) == p;
  }

  lemma OneMoreMove(w: World, cfg: Config, p: History, e: Event)
    requires Follows(w, cfg, p) && NextMove(w, cfg, p) == Emit(e)
    ensures Follows(w, cfg, p + [e])
  {
    var h := p + [e];
    forall i | 0 <= i < |h|
      ensures MadeMove(w, cfg, h, i)
    {
      assert i < |p| ==> h[..i] == p[..i] && MadeMove(w, cfg, p, i);
      assert i == |p| ==> h[..i] == p;
    }
  }

  lemma NotDenied(w: World, p: History)
    requires p != [] && Last(p).Work? && !Walled(w, p)
    ensures LastDeny(w, Last(p).results).None?
  {
  }

  lemma StopsOnAnswer(v: World, cfg: Config, p: History)
    requires p != [] && Last(p).Work? && !Walled(v, p) && LastCollected(Last(p).results).Some?
    requires (forall d :: !v.cancels(d)) && forall s :: v.hasAnswer(s)
    ensures RegularStop(NextMove(v, cfg, p)) && !WaitSince(p, |p|)
  {
    hide LastDeny, LastAnswer, LastCollected, Dispatches, FinalContent, Transcript, Ask, Walled;
    NotDenied(v, p);
    AllAnswer(v, Last(p).results);
    DispatchCounts(p);
  }

  lemma DispatchCounts(p: History)
    requires p != [] && Last(p).Work?
    ensures Dispatches(p) > 0
  {
  }

  lemma SpeaksNext(w: World, cfg: Config, p: History, text: string)
    requires p != [] && Last(p).Work? && LastCollected(Last(p).results).None? && !Collected(Front(p))
    requires TurnCount(p) < MaxTurns(cfg)
    requires var v := Ending(w, text, TurnCount(p)); !Worked(v, p) && !Walled(v, p)
    ensures NextMove(Ending(w, text, TurnCount(p)), cfg, p) == Emit(Turn(text, [], 0))
  {
    hide LastDeny, LastAnswer, LastCollected, Dispatches, FinalContent, Transcript, Ask, Walled, Worked, TurnCount;
    var v := Ending(w, text, TurnCount(p));
    NotDenied(v, p);
    AllAnswer(v, Last(p).results);
    DispatchCounts(p);
  }

  lemma StopsOnWords(w: World, cfg: Config, p: History, text: string)
    requires p != [] && text != "" && (Waited(p) || AutoWaited(p) || !CanAutoWait(cfg))
    ensures RegularStop(NextMove(Ending(w, text, TurnCount(p)), cfg, p + [Turn(text, [], 0)]))
  {
    hide Dispatches, FinalContent, Transcript, BeforeWait, TurnCount, Delegated, Waited, AutoWaited, Nudges, Resaid;
    var v := Ending(w, text, TurnCount(p));
    AnswersMove(v, p, Turn(text, [], 0));
  }

  function Repeat(n: nat): (s: string)
    ensures |s| == n
  {
    seq(n, _ => 'x')
  }

  /** Without a turn left, and nothing collected, a dispatch is followed by no regular stop, except on the wall. */
  lemma NoTurnLeft(w: World, cfg: Config, p: History, h: History)
    requires Follows(w, cfg, h) && p <= h && p != [] && Last(p).Work?
    requires TurnCount(p) >= MaxTurns(cfg) && LastCollected(Last(p).results).None?
    ensures RegularStop(NextMove(w, cfg, h)) ==> Walled(w, h)
  {
    hide Follows, LastDeny, LastAnswer, LastCollected, Dispatches, FinalContent, Transcript, Ask, TurnCount;
    AllAnswer(w, Last(p).results);
    DispatchCounts(p);
    if h != p {
      hide NextMove;
      assert p == h[..|p|];
      FollowsPrefix(w, cfg, h, |p|);
      WallStays(w, h, |p|);
      NoTurnNoMove(w, cfg, p);
    }
  }

  lemma NoTurnNoMove(w: World, cfg: Config, p: History)
    requires p != [] && Last(p).Work? && Dispatches(p) > 0 && NextMove(w, cfg, p).Emit?
    requires TurnCount(p) >= MaxTurns(cfg) && LastAnswer(w, Last(p).results).None?
    ensures Walled(w, p)
  {
    hide LastDeny, LastAnswer, Dispatches, FinalContent, Transcript, Ask, TurnCount;
  }

  lemma {:induction false} WallStays(w: World, h: History, n: nat)
    requires n <= |h| && Walled(w, h[..n])
    ensures Walled(w, h)
    decreases |h|
  {
    hide LastDeny;
    if n == |h| {
      assert h[..n] == h;
    } else {
      assert Front(h)[..n] == h[..n];
      WallStays(w, Front(h), n);
    }
  }

  /** The barrier is still to come when the delegation is the first thing to wait for. */
  lemma FirstToWait(p: History, k: nat)
    requires p != [] && DelegatesAt(p, |p| - 1, k) && !WaitAfter(p, |p| - 1, k)
    ensures WaitBefore(p, |p| - 1, k) <==> Waited(p) || AutoWaited(p)
  {
    hide Waited, AutoWaited, DelegatesAt, WaitsAt;
    WaitedIff(p);
    if j: nat, l: nat :| WaitsAt(p, j, l) {
      NotBoth(p, |p| - 1, k, j, l);
      assert Before(|p| - 1, k, j, l) || Before(j, l, |p| - 1, k);
    }
  }

  lemma NotBoth(h: History, i: nat, k: nat, j: nat, l: nat)
    requires DelegatesAt(h, i, k) && WaitsAt(h, j, l)
    ensures (i, k) != (j, l)
  {
  }

  /** A run that delegated before any wait has its wait later. */
  lemma BarrierHolds(w: World, cfg: Config, p: History, h: History, k: nat)
    requires Follows(w, cfg, h) && RegularStop(NextMove(w, cfg, h)) && CanAutoWait(cfg) && !Worked(w, h)
        && !Walled(w, h)
    requires p != [] && p <= h && DelegatesAt(p, |p| - 1, k) && !Waited(p) && !AutoWaited(p)
    ensures WaitSince(h, |p|)
  {
    hide NextMove, Follows, Delegated, Waited, AutoWaited, Worked, Walled, CanAutoWait;
    assert DelegatesAt(h, |p| - 1, k);
    DelegatedIff(h);
    StopNeedsWait(w, cfg, h, NextMove(w, cfg, h).verdict);
    WaitedIff(h);
    var j: nat, l: nat :| WaitsAt(h, j, l);
    WaitedIff(p);
    assert j < |p| ==> WaitsAt(p, j, l);
  }

  /**
   Exactly when the barrier keeps its promise. A dispatch delegated, no wait came after the
   delegation in its batch, no shell command did the work and the wall was not hit. Then every
   way to a regular stop from here passes another wait exactly if the barrier is available and
   no wait came before the delegation; or no turn is left and the batch collected no thread.
   */
  lemma {:induction false} BarrierIff(w: World, cfg: Config, p: History, k: nat)
    requires Follows(w, cfg, p) && p != [] && DelegatesAt(p, |p| - 1, k) && !WaitAfter(p, |p| - 1, k) && !Worked(w, p)
        && !Walled(w, p)
    ensures AlwaysCollected(cfg, p) <==>
              || (CanAutoWait(cfg) && !WaitBefore(p, |p| - 1, k))
              || (TurnCount(p) == MaxTurns(cfg) && LastCollected(Last(p).results).None?)
  {
    hide NextMove, Follows, TurnCount, Worked, Walled, LastCollected, Waited, AutoWaited, WaitBefore, WaitAfter,
        WaitSince, CanAutoWait;
    FirstToWait(p, k);
    RunIsBounded(w, cfg, p);
    if CanAutoWait(cfg) && !WaitBefore(p, |p| - 1, k) {
      forall v: World, h: History |
        p <= h && Follows(v, cfg, h) && RegularStop(NextMove(v, cfg, h)) && !Worked(v, h) && !Walled(v, h)
        ensures WaitSince(h, |p|)
      {
        BarrierHolds(v, cfg, p, h, k);
      }
    } else if TurnCount(p) == MaxTurns(cfg) && LastCollected(Last(p).results).None? {
      forall v: World, h: History | p <= h && Follows(v, cfg, h) && RegularStop(NextMove(v, cfg, h))
        ensures Walled(v, h)
      {
        NoTurnLeft(v, cfg, p, h);
      }
    } else {
      var h := EndingStops(w, cfg, p, Repeat(Bulk(w, cfg, p) + 1));
    }
  }

  // ---------------------------------------------------------------- a run that abandons its thread

  const WAIT := ToolCall("1", "wait_for_threads", map[])
  const DELEGATE := ToolCall("2", "delegate_to_agent", map[])

  /** A lead that waits first, then delegates, then has nothing to say. */
  function Hasty(found: string): World {
    var calls := (n: nat) => if n == 0 then [WAIT] else if n == 1 then [DELEGATE] else [];
    World((n: nat, _: seq<Message>, _: seq<string>) => Completion([], false, Some(Response("", calls(n), 0))),
          (d: nat, _: nat) => if d == 0 then found else "ok", _ => false, _ => false,
          (r: Response, _: seq<string>) => (r.content, r.toolCalls), (s: string, _: string) => s,
          (_, _, s: string) => s, (_, _, _) => "", (_, _) => "", _ => false, _ => false, _ => false, (_, _) => false,
          _ => false, s => s)
  }

  function HastyRun(found: string): History {
    [Turn("", [WAIT], 0), Work([Dispatched(WAIT, found)]), Turn("", [DELEGATE], 0),
        Work([Dispatched(DELEGATE, "ok")]), Turn("", [], 0)]
  }

  function HastyConfig(): Config { Config([], 10, ["wait_for_threads"], true, 0) }

  lemma OneAnswer(p: Dispatched -> bool, r: Dispatched)
    ensures LastOf(p, [r]).Some? <==> p(r)
  {
    LastOfIff(p, [r]);
    assert [r][0] == r;
  }

  lemma HastyEvent(found: string, n: nat)
    requires !ThreadsFinished(found) && n < 5
    ensures var w, e := Hasty(found), HastyRun(found)[n];
            && e.Turn? == (n % 2 == 0) && e.Work? == (n % 2 == 1)
            && (e.Work? ==> (LastWait(e.results).Some? <==> n == 1))
            && (e.Work? ==> LastDeny(w, e.results).None? && LastAnswer(w, e.results).None?)
            && !CollectsNow(e) && !WorksNow(w, e)
  {
    hide ThreadsFinished, LastOf;
    var w := Hasty(found);
    if n == 1 || n == 3 {
      var r := HastyRun(found)[n].results[0];
      OneAnswer(r => Waits(r), r);
      OneAnswer(r => Collects(r), r);
      OneAnswer(r => Denies(w, r), r);
      OneAnswer(r => Answers(w, r), r);
      OneAnswer(r => DoesWork(w, r), r);
    }
  }

  /** What the run has behind it after n events. */
  ghost predicate HastyFacts(found: string, h: History, n: nat) {
    && TurnCount(h) == (n + 1) / 2 && Dispatches(h) == n / 2 && (Waited(h) <==> n >= 2)
    && !AutoWaited(h) && !Collected(h) && !Worked(Hasty(found), h) && !Walled(Hasty(found), h)
  }

  lemma {:induction false} HastyPast(found: string, n: nat)
    requires !ThreadsFinished(found) && n <= 5
    ensures HastyFacts(found, HastyRun(found)[..n], n)
  {
    if n == 0 {
      HastyStart(found);
    } else {
      var h := HastyRun(found);
      HastyPast(found, n - 1);
      HastyEvent(found, n - 1);
      assert h[..n] == h[..n - 1] + [h[n - 1]];
      HastyStep(found, h[..n - 1], h[n - 1], n - 1);
    }
  }

  lemma HastyStep(found: string, h: History, e: Event, n: nat)
    requires HastyFacts(found, h, n) && e.Turn? == (n % 2 == 0) && e.Work? == (n % 2 == 1)
    requires e.Work? ==> (LastWait(e.results).Some? <==> n == 1) && LastDeny(Hasty(found), e.results).None?
    requires !CollectsNow(e) && !WorksNow(Hasty(found), e)
    ensures HastyFacts(found, h + [e], n + 1)
  {
    hide TurnCount, Dispatches, Waited, AutoWaited, Collected, Worked, CollectsNow, WorksNow, LastWait, LastDeny, Hasty;
    assert Front(h + [e]) == h;
    CountsMove(h, e);
    AnswersMove(Hasty(found), h, e);
  }

  lemma HastyStart(found: string)
    ensures HastyFacts(found, [], 0)
  {
  }

  lemma HastyMove(found: string, n: nat)
    requires !ThreadsFinished(found) && n < 5
    ensures NextMove(Hasty(found), HastyConfig(), HastyRun(found)[..n]) == Emit(HastyRun(found)[n])
  {
    hide ThreadsFinished, TurnCount, Dispatches, Waited, AutoWaited, Collected, Worked, Transcript, Ask, Walled,
        Delegated;
    hide LastDeny, LastAnswer, FinalContent;
    HastyPast(found, n);
    var w, h := Hasty(found), HastyRun(found)[..n];
    if n > 0 {
      HastyEvent(found, n - 1);
      assert Last(h) == HastyRun(found)[n - 1];
    }
    if n % 2 == 1 {
      var e := HastyRun(found)[n];
      assert ResultsOf(w, Dispatches(h), Last(h).calls) == e.results;
    }
  }

  lemma HastyStops(found: string)
    requires !ThreadsFinished(found)
    ensures RegularStop(NextMove(Hasty(found), HastyConfig(), HastyRun(found)))
  {
    hide ThreadsFinished, TurnCount, Dispatches, Waited, AutoWaited, Collected, Worked, Transcript, Ask, Walled,
        Delegated, Resaid;
    HastyPast(found, 5);
    assert HastyRun(found)[..5] == HastyRun(found);
  }

  /** For any wait answer that reports no finished thread: the barrier is spent before anything was delegated. */
  lemma EarlyWaitSpendsBarrier(found: string)
    requires !ThreadsFinished(found)
    ensures var w, cfg, h := Hasty(found), HastyConfig(), HastyRun(found);
            && CanAutoWait(cfg) && Follows(w, cfg, h) && RegularStop(NextMove(w, cfg, h)) && !Worked(w, h)
                && !Walled(w, h)
            && DelegatesAt(h, 3, 0) && !WaitAfter(h, 3, 0)
  {
    hide ThreadsFinished, NextMove, Worked, Walled, Follows;
    var h := HastyRun(found);
    forall n | 0 <= n < |h|
      ensures MadeMove(Hasty(found), HastyConfig(), h, n)
    {
      HastyMove(found, n);
    }
    Made(Hasty(found), HastyConfig(), h);
    HastyStops(found);
    HastyPast(found, 5);
    assert h[..5] == h;
  }
}
