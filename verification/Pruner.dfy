/**
 Shrinking a history before it is sent (pkg/agent/context.go, pruneHistoryForContext and
 compactOldChitChat), and how that interacts with the sanitiser that runs before and after it.

 The token estimate and its trigger ratio are the predicate over; the test whether a trimmed,
 lower-cased text is one of the brief acknowledgements is the predicate ack.
 */
module Pruner {
  import opened Transcript

  /** toolsOnly is PruningMode "tools_only"; a mode of "off" or a zero window is enabled == false. */
  datatype Settings = Settings(enabled: bool, toolsOnly: bool, softChars: int, hardChars: int, includeChitChat: bool)

  const CONDENSED := "\n...\n[tool result condensed for context stability]\n...\n"
  const OMITTED := "[tool result omitted for context stability; details preserved in session history]"

  function Min(a: int, b: int): int { if a < b then a else b }

  // ------------------------------------------------------------------ the three passes

  function Condense(raw: string, soft: int): string
    requires 0 < soft < |raw|
  {
    raw[..soft * 7 / 10] + CONDENSED + raw[|raw| - soft * 2 / 10..]
  }

  function SoftPrune(msg: Message, cfg: Settings): Message {
    if cfg.toolsOnly && msg.role == Tool && cfg.softChars > 0 && |msg.content| > cfg.softChars
    then msg.(content := Condense(msg.content, cfg.softChars))
    else msg
  }

  function SoftPass(h: seq<Message>, cutoff: nat, cfg: Settings): (r: seq<Message>)
    requires cutoff <= |h|
    ensures |r| == |h|
  {
    seq(|h|, i requires 0 <= i < |h| => if i < cutoff then SoftPrune(h[i], cfg) else h[i])
  }

  /** A brief acknowledgement: plain user or assistant text that ack recognises. */
  predicate IsLowSignal(m: Message, ack: string -> bool) {
    (m.role == User || m.role == Assistant) && m.toolCalls == [] && m.toolCallID == "" && ack(m.content)
  }

  function Decimal(n: nat): string {
    if n < 10 then [("0123456789")[n]] else Decimal(n / 10) + [("0123456789")[n % 10]]
  }

  function Note(n: nat): Message {
    Message(Assistant, "[History note: " + Decimal(n) + " brief acknowledgements condensed]", [], "")
  }

  /** A note that stands for a condensed run. */
  ghost predicate IsNote(m: Message) { exists n: nat :: n >= 2 && m == Note(n) }

  /** The end of the run of acknowledgements that starts at i. */
  function RunEnd(h: seq<Message>, i: nat, cutoff: nat, ack: string -> bool): (j: nat)
    requires i <= cutoff <= |h|
    ensures i <= j <= cutoff
    ensures forall k :: i <= k < j ==> IsLowSignal(h[k], ack)
    decreases cutoff - i
  {
    if i < cutoff && IsLowSignal(h[i], ack) then RunEnd(h, i + 1, cutoff, ack) else i
  }

  /** Where the entry of the compacted list behind that for position i begins. */
  function NextEntry(h: seq<Message>, i: nat, cutoff: nat, ack: string -> bool): (j: nat)
    requires cutoff <= |h| && i < |h|
    ensures i < j <= |h|
  {
    if i < cutoff && IsLowSignal(h[i], ack) then RunEnd(h, i, cutoff, ack) else i + 1
  }

  /** The entry of the compacted list for position i. */
  function EntryAt(h: seq<Message>, i: nat, cutoff: nat, ack: string -> bool): Message
    requires cutoff <= |h| && i < |h|
  {
    var j := NextEntry(h, i, cutoff, ack);
    if j - i >= 2 then Note(j - i) else h[i]
  }

  /** Runs of two or more acknowledgements before the cutoff become one note each. */
  function Compact(h: seq<Message>, i: nat, cutoff: nat, ack: string -> bool): seq<Message>
    requires cutoff <= |h| && i <= |h|
    decreases |h| - i
  {
    if i == |h| then []
    else [EntryAt(h, i, cutoff, ack)] + Compact(h, NextEntry(h, i, cutoff, ack), cutoff, ack)
  }

  /** Clears long results from the front until the estimate is below the trigger. */
  function HardPass(p: seq<Message>, i: nat, limit: nat, hard: int, over: seq<Message> -> bool): (r: seq<Message>)
    requires i <= limit <= |p|
    ensures |r| == |p|
    decreases limit - i
  {
    if i == limit || !over(p) then p
    else if p[i].role == Tool && |p[i].content| > hard
    then HardPass(p[i := p[i].(content := OMITTED)], i + 1, limit, hard, over)
    else HardPass(p, i + 1, limit, hard, over)
  }

  function Cutoff(h: seq<Message>): int { |h| - 8 }

  /** The list that the hard pass finds. */
  function BeforeClearing(h: seq<Message>, cfg: Settings, ack: string -> bool): seq<Message>
    requires Cutoff(h) > 0
  {
    var soft := SoftPass(h, Cutoff(h), cfg);
    if cfg.includeChitChat then Compact(soft, 0, Cutoff(h), ack) else soft
  }

  function Prune(h: seq<Message>, cfg: Settings, over: seq<Message> -> bool, ack: string -> bool): seq<Message> {
    if !cfg.enabled || !over(h) || Cutoff(h) <= 0 then h
    else
      var p := BeforeClearing(h, cfg, ack);
      if !over(p) || cfg.hardChars <= 0 then p
      else HardPass(p, 0, Min(Cutoff(h), |p|), cfg.hardChars, over)
  }

  // ------------------------------------------------------------------ tool exchanges survive, up to content

  /** Forget the text of a tool result. */
  function Blank(m: Message): Message { if m.role == Tool then m.(content := "") else m }

  ghost predicate SameButResults(a: seq<Message>, b: seq<Message>) {
    |a| == |b| && forall i :: 0 <= i < |a| ==> Blank(a[i]) == Blank(b[i])
  }

  function Exchange(s: seq<Message>): seq<Message> {
    if s == [] then [] else (if IsExchange(s[0]) then [Blank(s[0])] else []) + Exchange(s[1..])
  }

  lemma {:induction false} SameExchange(a: seq<Message>, b: seq<Message>)
    requires SameButResults(a, b)
    ensures Exchange(a) == Exchange(b)
  {
    if a != [] {
      SameExchange(a[1..], b[1..]);
      assert Blank(a[0]) == Blank(b[0]);
    }
  }

  lemma {:induction false} SameTrans(a: seq<Message>, b: seq<Message>, c: seq<Message>)
    requires SameButResults(a, b) && SameButResults(b, c)
    ensures SameButResults(a, c)
  {
    forall i | 0 <= i < |a|
      ensures Blank(a[i]) == Blank(c[i])
    {
      assert Blank(a[i]) == Blank(b[i]);
    }
  }

  lemma {:induction false} HardPassSame(p: seq<Message>, i: nat, limit: nat, hard: int, over: seq<Message> -> bool)
    requires i <= limit <= |p|
    ensures SameButResults(p, HardPass(p, i, limit, hard, over))
    ensures forall k :: limit <= k < |p| ==> HardPass(p, i, limit, hard, over)[k] == p[k]
    decreases limit - i
  {
    if i < limit && over(p) {
      if p[i].role == Tool && |p[i].content| > hard {
        var q := p[i := p[i].(content := OMITTED)];
        HardPassSame(q, i + 1, limit, hard, over);
        SameTrans(p, q, HardPass(q, i + 1, limit, hard, over));
      } else {
        HardPassSame(p, i + 1, limit, hard, over);
      }
    }
  }

  lemma {:induction false} ExchangeSkipsRun(h: seq<Message>, i: nat, j: nat, ack: string -> bool)
    requires i <= j <= |h| && forall k :: i <= k < j ==> IsLowSignal(h[k], ack)
    ensures Exchange(h[i..]) == Exchange(h[j..])
    decreases j - i
  {
    if i < j {
      assert h[i..][1..] == h[i + 1..];
      ExchangeSkipsRun(h, i + 1, j, ack);
    }
  }

  lemma {:induction false} ExchangeHead(x: Message, rest: seq<Message>)
    ensures Exchange([x] + rest) == (if IsExchange(x) then [Blank(x)] else []) + Exchange(rest)
  {
    assert ([x] + rest)[1..] == rest;
  }

  lemma {:induction false} CompactExchange(h: seq<Message>, i: nat, cutoff: nat, ack: string -> bool)
    requires cutoff <= |h| && i <= |h|
    ensures Exchange(Compact(h, i, cutoff, ack)) == Exchange(h[i..])
    decreases |h| - i
  {
    if i < |h| {
      var j := NextEntry(h, i, cutoff, ack);
      CompactExchange(h, j, cutoff, ack);
      ExchangeHead(EntryAt(h, i, cutoff, ack), Compact(h, j, cutoff, ack));
      if i < cutoff && IsLowSignal(h[i], ack) {
        ExchangeSkipsRun(h, i, j, ack);
      } else {
        assert h[i..] == [h[i]] + h[j..];
        ExchangeHead(h[i], h[j..]);
      }
    }
  }

  /** Pruning keeps the sequence of tool calls and results, up to the text of the results. */
  lemma {:induction false} PruneKeepsExchange(
      h: seq<Message>, cfg: Settings, over: seq<Message> -> bool, ack: string -> bool)
    ensures Exchange(Prune(h, cfg, over, ack)) == Exchange(h)
  {
    if cfg.enabled && over(h) && Cutoff(h) > 0 {
      var soft := SoftPass(h, Cutoff(h), cfg);
      SameExchange(h, soft);
      CompactExchange(soft, 0, Cutoff(h), ack);
      assert soft[0..] == soft;
      var p := BeforeClearing(h, cfg, ack);
      var limit := Min(Cutoff(h), |p|);
      HardPassSame(p, 0, limit, cfg.hardChars, over);
      SameExchange(p, HardPass(p, 0, limit, cfg.hardChars, over));
    }
  }

  // ------------------------------------------------------------------ the recent messages

  lemma {:induction false} CompactTail(h: seq<Message>, i: nat, cutoff: nat, ack: string -> bool)
    requires cutoff <= i <= |h|
    ensures Compact(h, i, cutoff, ack) == h[i..]
    decreases |h| - i
  {
    if i < |h| {
      CompactTail(h, i + 1, cutoff, ack);
    }
  }

  /** The messages from the cutoff on stay at the end; what is before them can only get fewer. */
  lemma {:induction false} CompactKeepsTail(h: seq<Message>, i: nat, cutoff: nat, ack: string -> bool)
    requires i <= cutoff <= |h|
    ensures var r := Compact(h, i, cutoff, ack);
            |h| - cutoff <= |r| <= |h| - i && r[|r| - (|h| - cutoff)..] == h[cutoff..]
    decreases cutoff - i
  {
    if i == cutoff {
      CompactTail(h, i, cutoff, ack);
    } else {
      var j := if IsLowSignal(h[i], ack) then RunEnd(h, i, cutoff, ack) else i + 1;
      CompactKeepsTail(h, j, cutoff, ack);
      var r, rest := Compact(h, i, cutoff, ack), Compact(h, j, cutoff, ack);
      assert r[1..] == rest;
      assert r[|r| - (|h| - cutoff)..] == rest[|rest| - (|h| - cutoff)..];
    }
  }

  /** b ends in the last eight messages of a, and agrees with the end of a from the cutoff on. */
  ghost predicate KeepsRecent(a: seq<Message>, b: seq<Message>) {
    |b| <= |a| && forall k :: 0 <= k < |b| && Cutoff(a) <= k ==> b[k] == a[k + |a| - |b|]
  }

  lemma {:induction false} PassesKeepTail(h: seq<Message>, cfg: Settings, ack: string -> bool, p: seq<Message>)
    requires Cutoff(h) > 0 && p == BeforeClearing(h, cfg, ack)
    ensures 8 <= |p| && KeepsRecent(h, p) && p[|p| - 8..] == h[|h| - 8..]
  {
    var soft := SoftPass(h, Cutoff(h), cfg);
    assert soft[Cutoff(h)..] == h[Cutoff(h)..];
    CompactKeepsTail(soft, 0, Cutoff(h), ack);
    assert p[|p| - 8..] == h[|h| - 8..];
    forall k | 0 <= k < |p| && Cutoff(h) <= k
      ensures p[k] == h[k + |h| - |p|]
    {
      assert p[k] == p[|p| - 8..][k - (|p| - 8)];
    }
  }

  lemma {:induction false} RecentThrough(h: seq<Message>, p: seq<Message>, r: seq<Message>, limit: nat)
    requires KeepsRecent(h, p) && |r| == |p| && limit <= |p| && limit <= Cutoff(h)
    requires forall k :: limit <= k < |p| ==> r[k] == p[k]
    ensures KeepsRecent(h, r)
  {
  }

  /** From the old cutoff on, the pruned list agrees with the end of the history. */
  lemma {:induction false} RecentKept(h: seq<Message>, cfg: Settings, over: seq<Message> -> bool, ack: string -> bool)
    ensures KeepsRecent(h, Prune(h, cfg, over, ack))
  {
    if cfg.enabled && over(h) && Cutoff(h) > 0 {
      var p := BeforeClearing(h, cfg, ack);
      PassesKeepTail(h, cfg, ack, p);
      var limit := Min(Cutoff(h), |p|);
      var r := HardPass(p, 0, limit, cfg.hardChars, over);
      HardPassSame(p, 0, limit, cfg.hardChars, over);
      RecentThrough(h, p, r, limit);
    }
  }

  predicate IsLong(m: Message, hard: int) { m.role == Tool && |m.content| > hard && m.content != OMITTED }

  /** The hard pass comes to position k with the estimate still over the trigger and changes the message there. */
  predicate Clears(p: seq<Message>, k: nat, hard: int, over: seq<Message> -> bool)
    requires k < |p|
  {
    IsLong(p[k], hard) && over(HardPass(p, 0, k, hard, over))
  }

  lemma {:induction false} HardPassBehind(
      p: seq<Message>, i: nat, limit: nat, hard: int, over: seq<Message> -> bool, k: nat)
    requires k < i <= limit <= |p|
    ensures HardPass(p, i, limit, hard, over)[k] == p[k]
    decreases limit - i
  {
    if i < limit && over(p) {
      var long := p[i].role == Tool && |p[i].content| > hard;
      HardPassBehind(if long then p[i := p[i].(content := OMITTED)] else p, i + 1, limit, hard, over, k);
    }
  }

  /** What the hard pass does to one position depends on what it made of the positions before. */
  lemma {:induction false} HardPassAt(
      p: seq<Message>, i: nat, limit: nat, hard: int, over: seq<Message> -> bool, k: nat)
    requires i <= k < limit <= |p|
    ensures HardPass(p, i, limit, hard, over)[k] != p[k] <==> IsLong(p[k], hard) && over(HardPass(p, i, k, hard, over))
    decreases k - i
  {
    if over(p) {
      var long := p[i].role == Tool && |p[i].content| > hard;
      var q := if long then p[i := p[i].(content := OMITTED)] else p;
      if i == k {
        HardPassBehind(q, i + 1, limit, hard, over, k);
      } else {
        HardPassAt(q, i + 1, limit, hard, over, k);
      }
    }
  }

  /** The hard pass runs and changes one of the last eight messages of the condensed list. */
  ghost predicate HarmsRecent(h: seq<Message>, cfg: Settings, over: seq<Message> -> bool, ack: string -> bool)
    requires Cutoff(h) > 0
  {
    var p := BeforeClearing(h, cfg, ack);
    over(p) && cfg.hardChars > 0 &&
    exists k :: 0 <= k < |p| && |p| - 8 <= k < Cutoff(h) && Clears(p, k, cfg.hardChars, over)
  }

  lemma {:induction false} HardPassTailIff(p: seq<Message>, limit: nat, hard: int, over: seq<Message> -> bool)
    requires 8 <= |p| && limit <= |p|
    ensures HardPass(p, 0, limit, hard, over)[|p| - 8..] == p[|p| - 8..] <==>
            !exists k :: 0 <= k < |p| && |p| - 8 <= k < limit && Clears(p, k, hard, over)
  {
    var r := HardPass(p, 0, limit, hard, over);
    HardPassSame(p, 0, limit, hard, over);
    forall k | 0 <= k < limit
      ensures r[k] != p[k] <==> Clears(p, k, hard, over)
    {
      HardPassAt(p, 0, limit, hard, over, k);
    }
    assert forall k :: |p| - 8 <= k < |p| ==>
                         r[k] == r[|p| - 8..][k - (|p| - 8)] && p[k] == p[|p| - 8..][k - (|p| - 8)];
    if r[|p| - 8..] == p[|p| - 8..] {
      forall k | 0 <= k < |p| && |p| - 8 <= k < limit
        ensures !Clears(p, k, hard, over)
      {
        assert r[k] == p[k];
      }
    }
  }

  /** Exactly when the last eight messages come through as they were. */
  lemma {:induction false} LastEightKeptIff(
      h: seq<Message>, cfg: Settings, over: seq<Message> -> bool, ack: string -> bool)
    requires |h| >= 8
    ensures var r := Prune(h, cfg, over, ack);
            |r| >= 8 &&
            (r[|r| - 8..] == h[|h| - 8..] <==>
               !(cfg.enabled && over(h) && Cutoff(h) > 0 && HarmsRecent(h, cfg, over, ack)))
  {
    if cfg.enabled && over(h) && Cutoff(h) > 0 {
      var p := BeforeClearing(h, cfg, ack);
      PassesKeepTail(h, cfg, ack, p);
      HardPassTailIff(p, Min(Cutoff(h), |p|), cfg.hardChars, over);
    }
  }

  /** A history whose last eight messages hold no long tool result keeps them. */
  lemma {:induction false} ShortResultsKept(
      h: seq<Message>, cfg: Settings, over: seq<Message> -> bool, ack: string -> bool)
    requires |h| >= 8 && forall k :: |h| - 8 <= k < |h| ==> !IsLong(h[k], cfg.hardChars)
    ensures var r := Prune(h, cfg, over, ack);
            |r| >= 8 && r[|r| - 8..] == h[|h| - 8..]
  {
    LastEightKeptIff(h, cfg, over, ack);
    if Cutoff(h) > 0 {
      var p := BeforeClearing(h, cfg, ack);
      PassesKeepTail(h, cfg, ack, p);
      forall k | 0 <= k < |p| && |p| - 8 <= k < Cutoff(h)
        ensures !Clears(p, k, cfg.hardChars, over)
      {
        assert p[k] == p[|p| - 8..][k - (|p| - 8)] == h[|h| - 8..][k - (|p| - 8)];
      }
    }
  }

  /** When nothing was condensed that covers the last eight messages. */
  lemma {:induction false} LastEightKept(
      h: seq<Message>, cfg: Settings, over: seq<Message> -> bool, ack: string -> bool)
    requires |Prune(h, cfg, over, ack)| == |h| >= 8
    ensures Prune(h, cfg, over, ack)[|h| - 8..] == h[|h| - 8..]
  {
    RecentKept(h, cfg, over, ack);
  }

  /**
   Otherwise it need not: the hard pass counts positions in the condensed list, so it reaches into
   the last eight messages by as many places as the condensing removed.
   */
  lemma {:induction false} RecentResultCleared(text: string, h: seq<Message>, cfg: Settings)
    requires |text| > 10 && cfg == Settings(true, false, 0, 10, true)
    requires var say := (c: string) => Message(User, c, [], "");
             h == [say("ok"), say("ok"), Message(Assistant, "", [ToolCall("a", "read", "")], ""),
                   Message(Tool, text, [], "a")]
                  + seq(7, i => say("next"))
    ensures h[|h| - 8].content == text
    ensures var p := Prune(h, cfg, s => true, c => c == "ok");
            |p| == 10 && p[|p| - 8].content == OMITTED
  {
    var ack := (c: string) => c == "ok";
    assert |h| == 11;
    var soft := SoftPass(h, 3, cfg);
    assert soft == h;
    assert RunEnd(h, 2, 3, ack) == 2;
    assert RunEnd(h, 1, 3, ack) == 2;
    assert RunEnd(h, 0, 3, ack) == 2;
    CompactTail(h, 3, 3, ack);
    var p := Compact(h, 0, 3, ack);
    assert Compact(h, 2, 3, ack) == [h[2]] + h[3..];
    assert p == [Note(2)] + ([h[2]] + h[3..]);
    var over := (s: seq<Message>) => true;
    assert HardPass(p, 2, 3, 10, over) == HardPass(p[2 := p[2].(content := OMITTED)], 3, 3, 10, over);
    assert HardPass(p, 1, 3, 10, over) == HardPass(p, 2, 3, 10, over);
    assert HardPass(p, 0, 3, 10, over) == HardPass(p, 1, 3, 10, over);
  }

  // ------------------------------------------------------------------ sanitising what was pruned

  /** Nearly sanitary, and a plain message right before a tool turn is the user's or a note. */
  ghost predicate Condensed(p: seq<Message>) {
    && Chained(p)
    && forall k :: 0 < k < |p| && IsToolTurn(p[k]) && !IsExchange(p[k - 1]) ==>
                     p[k - 1].role == User || IsNote(p[k - 1])
  }

  lemma {:induction false} TurnAnsweredSame(a: seq<Message>, b: seq<Message>, i: int)
    requires SameButResults(a, b) && 0 <= i < |a| && TurnAnswered(a, i)
    ensures TurnAnswered(b, i)
  {
    assert forall k :: 0 <= k < |a| ==> Blank(a[k]) == Blank(b[k]);
    if IsToolTurn(b[i]) {
      var ids := CallIds(b[i].toolCalls);
      assert Answers(b, i, ids, |ids|);
      forall id | id in ids
        ensures HasAnswer(b, i, id, |ids|)
      {
        assert HasAnswer(a, i, id, |ids|);
        var k :| 0 <= i < k <= i + |ids| && k < |a| && a[k].role == Tool && a[k].toolCallID == id;
        assert b[k].role == Tool && b[k].toolCallID == id;
      }
    }
  }

  lemma {:induction false} SanitarySame(a: seq<Message>, b: seq<Message>)
    requires SameButResults(a, b) && Sanitary(a)
    ensures Sanitary(b)
  {
    forall i | 0 <= i < |b|
      ensures Placed(b, i) && TurnAnswered(b, i)
    {
      assert Placed(a, i) && Blank(a[i]) == Blank(b[i]);
      if i > 0 {
        assert Blank(a[i - 1]) == Blank(b[i - 1]);
      }
      TurnAnsweredSame(a, b, i);
    }
  }

  lemma {:induction false} CondensedSame(a: seq<Message>, b: seq<Message>)
    requires SameButResults(a, b) && Condensed(a)
    ensures Condensed(b)
  {
    assert forall k :: 0 <= k < |a| ==> Blank(a[k]) == Blank(b[k]);
    forall i | 0 <= i < |b|
      ensures TurnAnswered(b, i)
    {
      TurnAnsweredSame(a, b, i);
    }
    forall i | 0 <= i < |b|
      ensures b[i].role != System && (IsExchange(b[i]) ==> 0 < i)
      ensures 0 < i && b[i].role == Tool ==> IsExchange(b[i - 1])
      ensures 0 < i && IsToolTurn(b[i]) ==> !IsToolTurn(b[i - 1])
      ensures 0 < i && IsToolTurn(b[i]) && !IsExchange(b[i - 1]) ==> b[i - 1].role == User || IsNote(b[i - 1])
    {
      assert Blank(a[i]) == Blank(b[i]);
      if i > 0 {
        assert Blank(a[i - 1]) == Blank(b[i - 1]);
      }
    }
  }

  /** Messages that are not acknowledgements are copied. */
  lemma {:induction false} CompactCopies(h: seq<Message>, i: nat, j: nat, cutoff: nat, ack: string -> bool)
    requires cutoff <= |h| && i <= j <= |h| && forall k :: i <= k < j ==> !IsLowSignal(h[k], ack)
    ensures Compact(h, i, cutoff, ack) == h[i..j] + Compact(h, j, cutoff, ack)
    decreases j - i
  {
    if i < j {
      CompactCopies(h, i + 1, j, cutoff, ack);
      var tail := Compact(h, j, cutoff, ack);
      assert [h[i]] + (h[i + 1..j] + tail) == h[i..j] + tail;
    }
  }

  lemma {:induction false} AnswersMove(a: seq<Message>, i: nat, b: seq<Message>, d: int, ids: seq<string>, n: nat)
    requires Answers(a, i, ids, n) && 0 <= i + d && i + d + n < |b|
    requires forall m :: i + d < m <= i + d + n ==> b[m] == a[m - d]
    ensures Answers(b, i + d, ids, n)
  {
  }

  lemma {:induction false} HasAnswerMoves(a: seq<Message>, i: nat, b: seq<Message>, d: int, id: string, n: nat)
    requires HasAnswer(a, i, id, n) && 0 <= i + d && i + d + n < |b| && i + n < |a|
    requires forall m :: i + d < m <= i + d + n ==> b[m] == a[m - d]
    ensures HasAnswer(b, i + d, id, n)
  {
    var k :| 0 <= i < k <= i + n && k < |a| && a[k].role == Tool && a[k].toolCallID == id;
    var l := k + d;
    assert b[l] == a[k];
  }

  /** The answers of a turn move with it, by d places to position j. */
  lemma {:induction false} TurnMoves(a: seq<Message>, i: nat, b: seq<Message>, d: int, j: nat)
    requires i < |a| && j == i + d < |b| && b[j] == a[i] && TurnAnswered(a, i)
    requires IsToolTurn(a[i]) ==>
               var n := |CallIds(a[i].toolCalls)|;
               i + n < |a| && j + n < |b| && forall m :: j < m <= j + n ==> b[m] == a[m - d]
    ensures TurnAnswered(b, j)
  {
    if IsToolTurn(a[i]) {
      var ids := CallIds(a[i].toolCalls);
      AnswersMove(a, i, b, d, ids, |ids|);
      forall id | id in ids
        ensures HasAnswer(b, j, id, |ids|)
      {
        HasAnswerMoves(a, i, b, d, id, |ids|);
      }
    }
  }

  lemma {:induction false} TurnShifts(x: Message, rest: seq<Message>, k: nat)
    requires k < |rest| && TurnAnswered(rest, k)
    ensures TurnAnswered([x] + rest, k + 1)
  {
    TurnMoves(rest, k, [x] + rest, 1, k + 1);
  }

  /** A tool turn and its results, on their own. */
  lemma {:induction false} TurnAlone(h: seq<Message>, i: nat, j: nat)
    requires i < |h| && TurnAnswered(h, i) && IsToolTurn(h[i]) && j == i + 1 + |CallIds(h[i].toolCalls)|
    ensures j <= |h| && (forall k :: i <= k < j ==> IsExchange(h[k])) && TurnAnswered(h[i..j], 0)
  {
    var d: int := i;
    TurnMoves(h, i, h[i..j], -d, 0);
  }

  lemma {:induction false} CompactTurn(h: seq<Message>, i: nat, cutoff: nat, ack: string -> bool)
    requires cutoff <= |h| && i < |h| && TurnAnswered(h, i) && IsToolTurn(h[i])
    ensures Compact(h, i, cutoff, ack) != [] && TurnAnswered(Compact(h, i, cutoff, ack), 0)
  {
    var j := i + 1 + |CallIds(h[i].toolCalls)|;
    TurnAlone(h, i, j);
    CompactCopies(h, i, j, cutoff, ack);
    TurnAnsweredGrows(h[i..j], Compact(h, j, cutoff, ack), 0);
  }

  /** The shape of a compacted suffix, with what is known of its first message. */
  ghost predicate CompactShape(r: seq<Message>, h: seq<Message>, i: nat)
    requires i <= |h|
  {
    && (i == |h| ==> r == [])
    && (i < |h| ==> r != [] && (r[0] == h[i] || (IsNote(r[0]) && !IsExchange(h[i]))))
    && (forall k :: 0 <= k < |r| ==> r[k].role != System)
    && (forall k :: 0 < k < |r| && r[k].role == Tool ==> IsExchange(r[k - 1]))
    && (forall k :: 0 < k < |r| && IsToolTurn(r[k]) ==>
                      r[k - 1].role == Tool || r[k - 1].role == User || IsNote(r[k - 1]))
    && (forall k :: 0 <= k < |r| ==> TurnAnswered(r, k))
  }

  lemma {:induction false} ShapeGrows(x: Message, rest: seq<Message>, h: seq<Message>, i: nat, j: nat)
    requires i < j <= |h| && CompactShape(rest, h, j) && TurnAnswered([x] + rest, 0)
    requires x.role != System && (x == h[i] || (IsNote(x) && !IsExchange(h[i])))
    requires j < |h| && rest[0] == h[j] ==>
               && (h[j].role == Tool ==> IsExchange(x))
               && (IsToolTurn(h[j]) ==> x.role == Tool || x.role == User || IsNote(x))
    ensures CompactShape([x] + rest, h, i)
  {
    var r := [x] + rest;
    forall k | 0 < k < |r|
      ensures TurnAnswered(r, k)
    {
      TurnShifts(x, rest, k - 1);
    }
    forall k | 0 < k < |r|
      ensures r[k].role == Tool ==> IsExchange(r[k - 1])
      ensures IsToolTurn(r[k]) ==> r[k - 1].role == Tool || r[k - 1].role == User || IsNote(r[k - 1])
    {
      assert r[k] == rest[k - 1];
      if k > 1 {
        assert r[k - 1] == rest[k - 2];
      }
    }
  }

  /** What one entry of the compacted list stands for, and where the next one continues. */
  lemma {:induction false} CompactOne(
      h: seq<Message>, i: nat, cutoff: nat, ack: string -> bool) returns (x: Message, j: nat)
    requires cutoff <= |h| && i < |h| && Sanitary(h)
    ensures i < j <= |h| && Compact(h, i, cutoff, ack) == [x] + Compact(h, j, cutoff, ack)
    ensures (x == h[i] && j == i + 1) || (IsNote(x) && !IsExchange(h[i]) && !IsExchange(h[j - 1]))
    ensures IsToolTurn(x) ==> TurnAnswered(Compact(h, i, cutoff, ack), 0)
  {
    x, j := EntryAt(h, i, cutoff, ack), NextEntry(h, i, cutoff, ack);
    if i < cutoff && IsLowSignal(h[i], ack) {
      assert IsLowSignal(h[j - 1], ack);
    } else if IsToolTurn(h[i]) {
      assert TurnAnswered(h, i);
      CompactTurn(h, i, cutoff, ack);
    }
  }

  lemma {:induction false} CompactHasShape(h: seq<Message>, i: nat, cutoff: nat, ack: string -> bool)
    requires cutoff <= |h| && i <= |h| && Sanitary(h)
    ensures CompactShape(Compact(h, i, cutoff, ack), h, i)
    decreases |h| - i
  {
    if i < |h| {
      var x, j := CompactOne(h, i, cutoff, ack);
      CompactHasShape(h, j, cutoff, ack);
      assert Placed(h, i);
      if j < |h| {
        assert Placed(h, j);
      }
      ShapeGrows(x, Compact(h, j, cutoff, ack), h, i, j);
    }
  }

  lemma {:induction false} CompactIsCondensed(h: seq<Message>, cutoff: nat, ack: string -> bool)
    requires cutoff <= |h| && Sanitary(h)
    ensures Condensed(Compact(h, 0, cutoff, ack))
  {
    CompactHasShape(h, 0, cutoff, ack);
    var r := Compact(h, 0, cutoff, ack);
    if h != [] {
      assert Placed(h, 0);
    }
  }

  lemma {:induction false} SanitaryIsCondensed(s: seq<Message>)
    requires Sanitary(s)
    ensures Condensed(s)
  {
    SanitaryIsChained(s);
    forall k | 0 < k < |s| && IsToolTurn(s[k]) && !IsExchange(s[k - 1])
      ensures s[k - 1].role == User
    {
      assert Placed(s, k);
    }
  }

  lemma {:induction false} PruneIsCondensed(
      h: seq<Message>, cfg: Settings, over: seq<Message> -> bool, ack: string -> bool)
    requires Sanitary(h)
    ensures Condensed(Prune(h, cfg, over, ack))
  {
    SanitaryIsCondensed(h);
    if cfg.enabled && over(h) && Cutoff(h) > 0 {
      var soft := SoftPass(h, Cutoff(h), cfg);
      SanitarySame(h, soft);
      SanitaryIsCondensed(soft);
      CompactIsCondensed(soft, Cutoff(h), ack);
      var p := BeforeClearing(h, cfg, ack);
      var limit := Min(Cutoff(h), |p|);
      HardPassSame(p, 0, limit, cfg.hardChars, over);
      CondensedSame(p, HardPass(p, 0, limit, cfg.hardChars, over));
    }
  }

  /** A note, and behind it tool exchanges only, from j to i. */
  ghost predicate ChainBehindNote(p: seq<Message>, j: nat, i: nat) {
    0 < j <= i < |p| && IsNote(p[j - 1]) && forall k :: j <= k <= i ==> IsExchange(p[k])
  }

  /** The message belongs to a chain of tool exchanges that directly follows a note. */
  ghost predicate FollowsNote(p: seq<Message>, i: nat) {
    exists j :: ChainBehindNote(p, j, i)
  }

  lemma {:induction false} DroppedFollowsNote(p: seq<Message>, i: nat)
    requires Condensed(p) && i < |p| && !Keeps(p, i)
    ensures FollowsNote(p, i)
  {
    assert 0 < i;
    if !IsExchange(p[i - 1]) {
      assert ChainBehindNote(p, i, i);
    } else {
      DroppedFollowsNote(p, i - 1);
      var j :| ChainBehindNote(p, j, i - 1);
      assert ChainBehindNote(p, j, i);
    }
  }

  /**
   The second sanitising of a history that was sanitised and pruned only drops messages: no
   placeholder is added, and every message it drops is in a chain of tool exchanges behind a note.
   */
  lemma {:induction false} PruneThenSanitize(
      h: seq<Message>, cfg: Settings, over: seq<Message> -> bool, ack: string -> bool)
    requires Sanitary(h)
    ensures var p := Prune(h, cfg, over, ack);
            && Sanitize(p) == Kept(p, |p|)
            && forall i :: 0 <= i < |p| && !Keeps(p, i) ==> FollowsNote(p, i)
  {
    PruneIsCondensed(h, cfg, over, ack);
    var p := Prune(h, cfg, over, ack);
    SanitizeChained(p);
    forall i | 0 <= i < |p| && !Keeps(p, i)
      ensures FollowsNote(p, i)
    {
      DroppedFollowsNote(p, i);
    }
  }

  // ------------------------------------------------------------------ the loops

  method FindRunEnd(history: seq<Message>, i: nat, cutoff: nat, ack: string -> bool) returns (j: nat)
    requires i <= cutoff <= |history|
    ensures j == RunEnd(history, i, cutoff, ack)
  {
    j := i;
    while j < cutoff && IsLowSignal(history[j], ack)
      invariant i <= j <= cutoff
      invariant RunEnd(history, i, cutoff, ack) == RunEnd(history, j, cutoff, ack)
    {
      j := j + 1;
    }
  }

  lemma {:induction false} CompactRound(
      h: seq<Message>, i: nat, cutoff: nat, ack: string -> bool, result: seq<Message>, msg: Message, j: nat)
    requires i < |h| && cutoff <= |h|
    requires j == NextEntry(h, i, cutoff, ack) && msg == EntryAt(h, i, cutoff, ack)
    ensures result + Compact(h, i, cutoff, ack) == result + [msg] + Compact(h, j, cutoff, ack)
  {
    var rest := Compact(h, j, cutoff, ack);
    assert result + ([msg] + rest) == result + [msg] + rest;
  }

  method CompactOldChitChat(history: seq<Message>, cutoff: int, ack: string -> bool) returns (result: seq<Message>)
    requires cutoff <= |history|
    ensures result == if history == [] || cutoff <= 0 then history else Compact(history, 0, cutoff, ack)
  {
    if history == [] || cutoff <= 0 {
      return history;
    }
    result := [];
    var i := 0;
    while i < |history|
      invariant 0 <= i <= |history|
      invariant Compact(history, 0, cutoff, ack) == result + Compact(history, i, cutoff, ack)
    {
      var msg, j := history[i], i + 1;
      if i < cutoff && IsLowSignal(history[i], ack) {
        j := FindRunEnd(history, i, cutoff, ack);
        var runLen := j - i;
        if runLen >= 2 {
          msg := Note(runLen);
        }
      }
      CompactRound(history, i, cutoff, ack, result, msg, j);
      result, i := result + [msg], j;
    }
  }

  method ClearLongResults(
      p: seq<Message>, limit: nat, hard: int, over: seq<Message> -> bool) returns (pruned: seq<Message>)
    requires limit <= |p|
    ensures pruned == HardPass(p, 0, limit, hard, over)
  {
    pruned := p;
    var i := 0;
    while i < limit && over(pruned)
      invariant 0 <= i <= limit <= |pruned| == |p|
      invariant HardPass(p, 0, limit, hard, over) == HardPass(pruned, i, limit, hard, over)
    {
      var msg := pruned[i];
      if msg.role == Tool && |msg.content| > hard {
        pruned := pruned[i := msg.(content := OMITTED)];
      }
      i := i + 1;
    }
  }

  method CondenseOldResults(history: seq<Message>, cutoff: nat, cfg: Settings) returns (pruned: seq<Message>)
    requires cutoff <= |history|
    ensures pruned == SoftPass(history, cutoff, cfg)
  {
    pruned := [];
    for i := 0 to cutoff
      invariant pruned == SoftPass(history, cutoff, cfg)[..i]
    {
      pruned := pruned + [SoftPrune(history[i], cfg)];
    }
    pruned := pruned + history[cutoff..];
  }

  method PruneHistoryForContext(history: seq<Message>, cfg: Settings, over: seq<Message> -> bool, ack: string -> bool)
      returns (pruned: seq<Message>)
    ensures pruned == Prune(history, cfg, over, ack)
    ensures Exchange(pruned) == Exchange(history) && KeepsRecent(history, pruned)
  {
    PruneKeepsExchange(history, cfg, over, ack);
    RecentKept(history, cfg, over, ack);
    if history == [] || !cfg.enabled || !over(history) {
      return history;
    }
    var cutoff := |history| - 8;
    if cutoff <= 0 {
      return history;
    }
    pruned := CondenseOldResults(history, cutoff, cfg);
    if cfg.includeChitChat {
      pruned := CompactOldChitChat(pruned, cutoff, ack);
    }
    if !over(pruned) || cfg.hardChars <= 0 {
      return;
    }
    pruned := ClearLongResults(pruned, Min(cutoff, |pruned|), cfg.hardChars, over);
  }
}
