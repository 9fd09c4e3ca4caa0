/**
 Two sinks that must not care how their stream is cut into pieces: the speech-turn cutter
 (internal/agent/loop.go) and the capped hook output (internal/agent/hooks_config.go).
 */
module StreamFilters {
  /** The stream so far, whatever its pieces. */
  function Flat(pieces: seq<string>): string {
    if pieces == [] then "" else Flat(pieces[..|pieces| - 1]) + pieces[|pieces| - 1]
  }

  lemma FlatStep(pieces: seq<string>, p: string)
    ensures Flat(pieces + [p]) == Flat(pieces) + p
  {
    assert (pieces + [p])[..|pieces|] == pieces;
  }

  // ---------------------------------------------------------------- speechTurnCutter

  predicate Blank(c: char) { c == ' ' || c == '\t' || c == '\r' || c == '\n' }

  /** strings.TrimLeft(s, " \t\r\n"). */
  function TrimLeft(s: string): string {
    if s != "" && Blank(s[0]) then TrimLeft(s[1..]) else s
  }

  /** The first non-blank character is an opening brace. */
  ghost predicate OpensWithBrace(s: string) {
    exists i | 0 <= i < |s| :: s[i] == '{' && forall j | 0 <= j < i :: Blank(s[j])
  }

  predicate AllBlank(s: string) { forall i | 0 <= i < |s| :: Blank(s[i]) }

  lemma {:induction false} TrimLeftIs(s: string)
    ensures TrimLeft(s) == "" <==> AllBlank(s)
    ensures TrimLeft(s) != "" && TrimLeft(s)[0] == '{' <==> OpensWithBrace(s)
  {
    if s != "" && Blank(s[0]) {
      TrimLeftIs(s[1..]);
      assert AllBlank(s) <==> AllBlank(s[1..]) by {
        if AllBlank(s[1..]) {
          assert forall i | 0 < i < |s| :: s[i] == s[1..][i - 1];
        }
      }
      if OpensWithBrace(s) {
        var i :| 0 <= i < |s| && s[i] == '{' && forall j | 0 <= j < i :: Blank(s[j]);
        assert s[1..][i - 1] == '{';
      }
      if OpensWithBrace(s[1..]) {
        var i :| 0 <= i < |s[1..]| && s[1..][i] == '{' && forall j | 0 <= j < i :: Blank(s[1..][j]);
        assert s[i + 1] == '{' && forall j | 0 < j < i + 1 :: s[j] == s[1..][j - 1];
      }
    }
  }

  /** The first character that is not blank settles it for good. */
  lemma DecisionSticks(s: string, t: string)
    ensures !AllBlank(s) ==> (OpensWithBrace(s + t) <==> OpensWithBrace(s)) && !AllBlank(s + t)
    ensures AllBlank(s) ==> !OpensWithBrace(s)
  {
    if !AllBlank(s) {
      var i :| 0 <= i < |s| && !Blank(s[i]);
      assert !Blank((s + t)[i]);
      if OpensWithBrace(s + t) {
        var k :| 0 <= k < |s + t| && (s + t)[k] == '{' && forall j | 0 <= j < k :: Blank((s + t)[j]);
        assert k <= i;
        assert s[k] == '{' && forall j | 0 <= j < k :: s[j] == (s + t)[j];
      }
      if OpensWithBrace(s) {
        var k :| 0 <= k < |s| && s[k] == '{' && forall j | 0 <= j < k :: Blank(s[j]);
        assert (s + t)[k] == '{' && forall j | 0 <= j < k :: s[j] == (s + t)[j];
      }
    }
  }

  /** What the cutter keeps: the pieces up to and including the one that settled on a brace. */
  ghost function Held(pieces: seq<string>): string {
    if pieces == [] then ""
    else
      var front := pieces[..|pieces| - 1];
      if OpensWithBrace(Flat(front)) then Held(front) else Held(front) + pieces[|pieces| - 1]
  }

  /** What is held is the stream up to the end of the first piece that settles on a brace, or all of it. */
  lemma {:induction false} HeldIs(pieces: seq<string>)
    ensures !OpensWithBrace(Flat(pieces)) ==> Held(pieces) == Flat(pieces)
    ensures OpensWithBrace(Flat(pieces)) ==>
              exists n | 0 < n <= |pieces| ::
                && OpensWithBrace(Flat(pieces[..n])) && !OpensWithBrace(Flat(pieces[..n - 1]))
                && Held(pieces) == Flat(pieces[..n])
    decreases |pieces|
  {
    if pieces != [] {
      var front := pieces[..|pieces| - 1];
      HeldIs(front);
      DecisionSticks(Flat(front), pieces[|pieces| - 1]);
      if OpensWithBrace(Flat(front)) {
        var n :| 0 < n <= |front| && OpensWithBrace(Flat(front[..n])) && !OpensWithBrace(Flat(front[..n - 1]))
                 && Held(front) == Flat(front[..n]);
        assert front[..n] == pieces[..n] && front[..n - 1] == pieces[..n - 1];
      } else {
        assert pieces[..|pieces|] == pieces;
      }
    }
  }

  class SpeechTurnCutter {
    var raw: string
    var decided: bool
    var cut: bool
    var cancels: nat             // calls of the cancel function
    ghost var pieces: seq<string>

    ghost predicate Valid() reads this {
      var s := Flat(pieces);
      && (cut <==> OpensWithBrace(s))
      && (decided <==> !AllBlank(s))
      && cancels == (if cut then 1 else 0)
      && raw == Held(pieces) && raw <= s && (!cut ==> raw == s)
      && (cut ==> OpensWithBrace(raw))
    }

    constructor ()
      ensures Valid() && pieces == [] && raw == ""
    {
      raw, decided, cut, cancels, pieces := "", false, false, 0, [];
    }

    method OnToken(tok: string)
      requires Valid()
      modifies this
      ensures Valid() && pieces == old(pieces) + [tok]
      ensures raw == if old(cut) then old(raw) else old(raw) + tok
    {
      FlatStep(pieces, tok);
      assert (pieces + [tok])[..|pieces|] == pieces;
      DecisionSticks(Flat(pieces), tok);
      pieces := pieces + [tok];
      if cut {
        return;
      }
      raw := raw + tok;
      if decided {
        return;
      }
      var lead := TrimLeft(raw);
      TrimLeftIs(raw);
      if lead != "" {
        decided := true;
        if lead[0] == '{' {
          cut := true;
          cancels := cancels + 1;
        }
      }
    }
  }

  /** Feeding any list of pieces: cut exactly when the whole stream opens with a brace, and cancelled at most once. */
  method FeedCutter(input: seq<string>) returns (cut: bool, raw: string, cancels: nat)
    ensures cut <==> OpensWithBrace(Flat(input))
    ensures cancels == if cut then 1 else 0
    ensures !cut ==> raw == Flat(input)
    ensures cut ==> raw == Held(input) && raw <= Flat(input) && OpensWithBrace(raw)
  {
    var c := new SpeechTurnCutter();
    for i := 0 to |input|
      invariant fresh(c) && c.Valid() && c.pieces == input[..i]
    {
      assert input[..i + 1] == input[..i] + [input[i]];
      c.OnToken(input[i]);
    }
    assert input[..|input|] == input;
    cut, raw, cancels := c.cut, c.raw, c.cancels;
  }

  // ---------------------------------------------------------------- limitedHookOutput

  function Capped(s: string, limit: int): string {
    if |s| <= limit then s else if limit <= 0 then "" else s[..limit]
  }

  /**
   The flag's exact meaning: something was beyond the cap, or a write came, even an empty one,
   when the cap was reached.
   */
  ghost predicate MarksTruncated(pieces: seq<string>, limit: int) {
    |Flat(pieces)| > limit || exists k | 0 <= k < |pieces| :: |Flat(pieces[..k])| >= limit
  }

  class LimitedHookOutput {
    const limit: int
    var buf: string
    var truncated: bool
    ghost var pieces: seq<string>

    ghost predicate Valid() reads this {
      && buf == Capped(Flat(pieces), limit)
      && (truncated <==> pieces != [] && MarksTruncated(pieces, limit))
    }

    constructor (limit: int)
      ensures Valid() && this.limit == limit && pieces == []
    {
      this.limit := limit;
      buf, truncated, pieces := "", false, [];
    }

    /** Every write reports all of its bytes as written. */
    method Write(p: string) returns (n: nat)
      requires Valid()
      modifies this`buf, this`truncated, this`pieces
      ensures Valid() && n == |p| && pieces == old(pieces) + [p]
      ensures !truncated ==> buf == Flat(pieces)
    {
      WriteMarks(pieces, p, limit);
      pieces := pieces + [p];
      if !truncated {
        var remaining := limit - |buf|;
        if remaining <= 0 {
          truncated := true;
        } else if |p| > remaining {
          buf := buf + p[..remaining];
          truncated := true;
        } else {
          buf := buf + p;
        }
      }
      return |p|;
    }

    method String() returns (s: string)
      requires Valid()
      ensures s == if truncated
                   then Capped(Flat(pieces), limit) + "\n...[output truncated at " + Decimal(limit) + " bytes]"
                   else Flat(pieces)
    {
      if truncated {
        return buf + "\n...[output truncated at " + Decimal(limit) + " bytes]";
      }
      NotMarkedFits(pieces, limit);
      return buf;
    }
  }

  /** fmt's %d. */
  function Decimal(n: int): string
    decreases n < 0, if n < 0 then -n else n
  {
    if n < 0 then "-" + Decimal(-n)
    else if n < 10 then [(n as char) + '0']
    else Decimal(n / 10) + [(n % 10) as char + '0']
  }

  /** The number a text of digits stands for. */
  function Value(s: string): int {
    if s == "" then 0
    else if s[0] == '-' then -Value(s[1..])
    else 10 * Value(s[..|s| - 1]) + (s[|s| - 1] as int - '0' as int)
  }

  /** Reading a printed number back gives the number. */
  lemma {:induction false} DecimalValue(n: int)
    ensures Value(Decimal(n)) == n
    ensures Decimal(n) != "" && (n >= 0 ==> Decimal(n)[0] != '-')
    decreases n < 0, if n < 0 then -n else n
  {
    if n < 0 {
      DecimalValue(-n);
      assert Decimal(n)[1..] == Decimal(-n);
    } else if n < 10 {
      assert Decimal(n)[..0] == "";
    } else {
      DecimalValue(n / 10);
      assert Decimal(n)[..|Decimal(n)| - 1] == Decimal(n / 10);
    }
  }

  lemma WriteMarks(pieces: seq<string>, p: string, limit: int)
    ensures Flat(pieces + [p]) == Flat(pieces) + p
    ensures MarksTruncated(pieces + [p], limit) <==>
              (pieces != [] && MarksTruncated(pieces, limit)) || |Flat(pieces)| >= limit || |Flat(pieces) + p| > limit
    ensures pieces != [] && MarksTruncated(pieces, limit) ==> |Flat(pieces)| >= limit
  {
    FlatStep(pieces, p);
    var more := pieces + [p];
    assert more[..|pieces|] == pieces;
    forall k | 0 <= k < |pieces|
      ensures more[..k] == pieces[..k] && |Flat(pieces[..k])| <= |Flat(pieces)|
    {
      FlatGrows(pieces, k);
    }
  }

  lemma {:induction false} FlatGrows(pieces: seq<string>, k: nat)
    requires k <= |pieces|
    ensures |Flat(pieces[..k])| <= |Flat(pieces)|
    decreases |pieces|
  {
    if k == |pieces| {
      assert pieces[..k] == pieces;
    } else {
      assert pieces[..|pieces| - 1][..k] == pieces[..k];
      FlatGrows(pieces[..|pieces| - 1], k);
    }
  }

  lemma NotMarkedFits(pieces: seq<string>, limit: int)
    requires pieces == [] || !MarksTruncated(pieces, limit)
    ensures Capped(Flat(pieces), limit) == Flat(pieces)
  {
  }

  /**
   Feeding any list of writes: exactly the first `limit` characters of the stream, nothing lost
   while the flag is unset.
   */
  method FeedHookOutput(limit: int, input: seq<string>) returns (buf: string, truncated: bool)
    ensures buf == Capped(Flat(input), limit)
    ensures truncated <==> input != [] && MarksTruncated(input, limit)
    ensures !truncated ==> buf == Flat(input)
    ensures |Flat(input)| > limit >= 0 ==> truncated
  {
    var w := new LimitedHookOutput(limit);
    for i := 0 to |input|
      invariant fresh(w) && w.Valid() && w.limit == limit && w.pieces == input[..i]
    {
      assert input[..i + 1] == input[..i] + [input[i]];
      var n := w.Write(input[i]);
    }
    assert input[..|input|] == input;
    buf, truncated := w.buf, w.truncated;
  }

  /** The flag also rises when nothing was lost: a full buffer and one empty write. */
  lemma FullThenEmptyIsMarked(s: string)
    ensures MarksTruncated([s, ""], |s|) && Capped(Flat([s, ""]), |s|) == Flat([s, ""]) == s
  {
    FlatStep([s], "");
    FlatStep([], s);
    assert [] + [s] == [s] && [s] + [""] == [s, ""];
    assert [s, ""][..1] == [s];
  }
}
