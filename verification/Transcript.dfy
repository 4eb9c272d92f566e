/**
 Chat transcripts and the sanitiser that repairs one before it is sent to a provider
 (pkg/agent/context.go, sanitizeHistoryForProvider).
 */
module Transcript {
  import opened Text

  datatype Role = System | User | Assistant | Tool | Other(name: string)

  datatype ToolCall = ToolCall(id: string, name: string, arguments: string)

  datatype Message = Message(role: Role, content: string, toolCalls: seq<ToolCall>, toolCallID: string)

  /** An assistant message that requests tool calls. */
  predicate IsToolTurn(m: Message) { m.role == Assistant && m.toolCalls != [] }

  /** What is neither a system message nor part of a tool exchange. */
  predicate IsPlain(m: Message) { m.role != System && m.role != Tool && !IsToolTurn(m) }

  /** The distinct non-empty call ids, in order of first occurrence. */
  function CallIds(calls: seq<ToolCall>): (ids: seq<string>)
    ensures Distinct(ids) && "" !in ids
    ensures forall c :: c in calls && c.id != "" ==> c.id in ids
  {
    if calls == [] then []
    else
      var ids := CallIds(calls[..|calls| - 1]);
      var id := calls[|calls| - 1].id;
      if id == "" || id in ids then ids else ids + [id]
  }

  predicate Distinct(ids: seq<string>) {
    forall i, j :: 0 <= i < j < |ids| ==> ids[i] != ids[j]
  }

  function Without(ids: seq<string>, id: string): (r: seq<string>)
    ensures forall x :: x in r <==> x in ids && x != id
    ensures Distinct(ids) ==> Distinct(r) && |r| == |ids| - (if id in ids then 1 else 0)
  {
    if ids == [] then []
    else
      var head := Without(ids[..|ids| - 1], id);
      var last := ids[|ids| - 1];
      assert forall x :: x in ids <==> x in ids[..|ids| - 1] || x == last;
      assert Distinct(ids) ==> last !in ids[..|ids| - 1];
      if last == id then head else head + [last]
  }

  // ------------------------------------------------------------------ the format providers accept

  /** The n messages after i are tool results that carry n different ids out of ids. */
  ghost predicate Answers(s: seq<Message>, i: int, ids: seq<string>, n: nat) {
    && 0 <= i && i + n < |s|
    && (forall k :: i < k <= i + n ==> s[k].role == Tool && s[k].toolCallID in ids)
    && (forall k, l :: i < k < l <= i + n ==> s[k].toolCallID != s[l].toolCallID)
  }

  /** A tool turn with n distinct non-empty ids is followed by n results, one for each of them. */
  ghost predicate TurnAnswered(s: seq<Message>, i: int)
    requires 0 <= i < |s|
  {
    IsToolTurn(s[i]) ==>
      var ids := CallIds(s[i].toolCalls);
      Answers(s, i, ids, |ids|) && forall id :: id in ids ==> HasAnswer(s, i, id, |ids|)
  }

  ghost predicate HasAnswer(s: seq<Message>, i: int, id: string, n: nat) {
    exists k :: 0 <= i < k <= i + n && k < |s| && s[k].role == Tool && s[k].toolCallID == id
  }

  /** Results follow results or a tool turn; tool turns follow results or the user; no system message. */
  predicate Placed(s: seq<Message>, i: int)
    requires 0 <= i < |s|
  {
    && s[i].role != System
    && (s[i].role == Tool ==> 0 < i && (s[i - 1].role == Tool || IsToolTurn(s[i - 1])))
    && (IsToolTurn(s[i]) ==> 0 < i && (s[i - 1].role == Tool || s[i - 1].role == User))
  }

  ghost predicate Sanitary(s: seq<Message>) {
    && (forall i :: 0 <= i < |s| ==> Placed(s, i))
    && (forall i :: 0 <= i < |s| ==> TurnAnswered(s, i))
  }

  // ------------------------------------------------------------------ the sanitiser

  const PLACEHOLDER := "[tool result missing in transcript; synthesized placeholder for provider compatibility]"

  function Placeholder(id: string): Message { Message(Tool, PLACEHOLDER, [], id) }

  function Placeholders(ids: seq<string>): seq<Message> {
    seq(|ids|, i requires 0 <= i < |ids| => Placeholder(ids[i]))
  }

  /** No tool turn is current, or one is and these of its ids are still unanswered. */
  datatype Pending = Closed | Open(unanswered: seq<string>)

  datatype Progress = Progress(out: seq<Message>, pending: Pending)

  function Flush(p: Progress): Progress {
    Progress(if p.pending.Open? then p.out + Placeholders(p.pending.unanswered) else p.out, Closed)
  }

  function Accept(p: Progress, msg: Message): Progress {
    if msg.role == System then p
    else if msg.role == Tool then
      if p.pending.Closed? then p
      else
        var unanswered := p.pending.unanswered;
        if unanswered == [] then p.(out := p.out + [msg])
        else if msg.toolCallID == "" || msg.toolCallID !in unanswered then p
        else Progress(p.out + [msg], Open(Without(unanswered, msg.toolCallID)))
    else
      var f := Flush(p);
      if !IsToolTurn(msg) then f.(out := f.out + [msg])
      else if f.out == [] || (f.out[|f.out| - 1].role != User && f.out[|f.out| - 1].role != Tool) then f
      else Progress(f.out + [msg], Open(CallIds(msg.toolCalls)))
  }

  function Run(h: seq<Message>): Progress {
    if h == [] then Progress([], Closed) else Accept(Run(h[..|h| - 1]), h[|h| - 1])
  }

  function Sanitize(h: seq<Message>): seq<Message> { Flush(Run(h)).out }

  // ------------------------------------------------------------------ the output is sanitary

  /** out ends in the tool turn at t followed by results only, of which the first ones answer all but rest. */
  ghost predicate OpenTurn(out: seq<Message>, t: int, rest: seq<string>) {
    && 0 <= t < |out| && IsToolTurn(out[t])
    && var ids := CallIds(out[t].toolCalls);
    && Distinct(rest) && |rest| <= |ids| && (forall id :: id in rest ==> id in ids)
    && (forall k :: t < k < |out| ==> out[k].role == Tool)
    && Answers(out, t, ids, |ids| - |rest|)
    && (rest != [] ==> |out| == t + 1 + |ids| - |rest|)
    && (forall k :: t < k <= t + |ids| - |rest| ==> out[k].toolCallID !in rest)
    && (forall id :: id in ids && id !in rest ==> HasAnswer(out, t, id, |ids| - |rest|))
  }

  /** Everything but the turn at t is in order. */
  ghost predicate SanitaryBut(out: seq<Message>, t: int) {
    && (forall i :: 0 <= i < |out| ==> Placed(out, i))
    && (forall i :: 0 <= i < |out| && i != t ==> TurnAnswered(out, i))
  }

  ghost predicate InOrder(p: Progress) {
    match p.pending
    case Closed => Sanitary(p.out)
    case Open(rest) => exists t :: OpenTurn(p.out, t, rest) && SanitaryBut(p.out, t)
  }

  lemma {:induction false} AnswersGrow(s: seq<Message>, more: seq<Message>, i: int, ids: seq<string>, n: nat)
    requires Answers(s, i, ids, n)
    ensures Answers(s + more, i, ids, n)
  {
  }

  lemma {:induction false} HasAnswerGrows(s: seq<Message>, more: seq<Message>, i: int, id: string, n: nat, m: nat)
    requires HasAnswer(s, i, id, n) && n <= m
    ensures HasAnswer(s + more, i, id, m)
  {
    var k :| 0 <= i < k <= i + n && k < |s| && s[k].role == Tool && s[k].toolCallID == id;
    assert (s + more)[k] == s[k];
  }

  lemma {:induction false} TurnAnsweredGrows(s: seq<Message>, more: seq<Message>, i: int)
    requires 0 <= i < |s| && TurnAnswered(s, i)
    ensures TurnAnswered(s + more, i)
  {
    if IsToolTurn(s[i]) {
      var ids := CallIds(s[i].toolCalls);
      AnswersGrow(s, more, i, ids, |ids|);
      forall id | id in ids
        ensures HasAnswer(s + more, i, id, |ids|)
      {
        HasAnswerGrows(s, more, i, id, |ids|, |ids|);
      }
    }
  }

  /** Appending in the right place keeps what was in order. */
  lemma {:induction false} SanitaryGrows(s: seq<Message>, msg: Message, t: int)
    requires SanitaryBut(s, t) && Placed(s + [msg], |s|)
    ensures (forall i :: 0 <= i <= |s| ==> Placed(s + [msg], i))
    ensures (forall i :: 0 <= i < |s| && i != t ==> TurnAnswered(s + [msg], i))
  {
    forall i | 0 <= i < |s| && i != t
      ensures TurnAnswered(s + [msg], i)
    {
      TurnAnsweredGrows(s, [msg], i);
    }
    forall i | 0 <= i < |s|
      ensures Placed(s + [msg], i)
    {
      assert Placed(s, i);
    }
  }

  /** One more result for an id still unanswered. */
  lemma {:induction false} AnswerOne(out: seq<Message>, t: int, rest: seq<string>, msg: Message)
    requires OpenTurn(out, t, rest)
    requires msg.role == Tool && msg.toolCallID in rest
    ensures OpenTurn(out + [msg], t, Without(rest, msg.toolCallID))
  {
    var ids := CallIds(out[t].toolCalls);
    var out', rest' := out + [msg], Without(rest, msg.toolCallID);
    assert Answers(out', t, ids, |ids| - |rest'|);
    forall id | id in ids && id !in rest'
      ensures HasAnswer(out', t, id, |ids| - |rest'|)
    {
      if id == msg.toolCallID {
        assert out'[|out|].toolCallID == id;
      } else {
        HasAnswerGrows(out, [msg], t, id, |ids| - |rest|, |ids| - |rest'|);
      }
    }
  }

  /** An extra result after all ids are answered. */
  lemma {:induction false} AnswerExtra(out: seq<Message>, t: int, msg: Message)
    requires OpenTurn(out, t, []) && msg.role == Tool
    ensures OpenTurn(out + [msg], t, [])
  {
    var ids := CallIds(out[t].toolCalls);
    AnswersGrow(out, [msg], t, ids, |ids|);
    forall id | id in ids
      ensures HasAnswer(out + [msg], t, id, |ids|)
    {
      HasAnswerGrows(out, [msg], t, id, |ids|, |ids|);
    }
  }

  /** A result behind a turn that is still open leaves everything else in order. */
  lemma {:induction false} ResultGrows(out: seq<Message>, t: int, rest: seq<string>, msg: Message)
    requires OpenTurn(out, t, rest) && SanitaryBut(out, t) && msg.role == Tool
    ensures SanitaryBut(out + [msg], t)
  {
    SanitaryGrows(out, msg, t);
    assert !IsToolTurn((out + [msg])[|out|]);
  }

  lemma {:induction false} FullyAnswered(out: seq<Message>, t: int)
    requires OpenTurn(out, t, []) && SanitaryBut(out, t)
    ensures Sanitary(out)
  {
    assert TurnAnswered(out, t);
  }

  lemma {:induction false} PlaceholderAnswers(out: seq<Message>, t: int, rest: seq<string>)
    requires OpenTurn(out, t, rest) && SanitaryBut(out, t) && rest != []
    ensures OpenTurn(out + [Placeholder(rest[0])], t, rest[1..]) && SanitaryBut(out + [Placeholder(rest[0])], t)
  {
    AnswerOne(out, t, rest, Placeholder(rest[0]));
    ResultGrows(out, t, rest, Placeholder(rest[0]));
    WithoutHead(rest);
  }

  /** Placeholders complete the current turn. */
  lemma {:induction false} PlaceholdersAnswer(out: seq<Message>, t: int, rest: seq<string>)
    requires OpenTurn(out, t, rest) && SanitaryBut(out, t)
    ensures Sanitary(out + Placeholders(rest))
    decreases |rest|
  {
    if rest == [] {
      FullyAnswered(out, t);
      assert out + Placeholders(rest) == out;
    } else {
      var out' := out + [Placeholder(rest[0])];
      PlaceholderAnswers(out, t, rest);
      PlaceholdersAnswer(out', t, rest[1..]);
      assert out + Placeholders(rest) == out' + Placeholders(rest[1..]);
    }
  }

  lemma {:induction false} WithoutHead(ids: seq<string>)
    requires ids != [] && Distinct(ids)
    ensures Without(ids, ids[0]) == ids[1..]
  {
    if |ids| > 1 {
      WithoutHead(ids[..|ids| - 1]);
      assert ids[..|ids| - 1][1..] + [ids[|ids| - 1]] == ids[1..];
    }
  }

  lemma {:induction false} FlushInOrder(p: Progress)
    requires InOrder(p)
    ensures Sanitary(Flush(p).out)
  {
    if p.pending.Open? {
      var t :| OpenTurn(p.out, t, p.pending.unanswered) && SanitaryBut(p.out, t);
      PlaceholdersAnswer(p.out, t, p.pending.unanswered);
    }
  }

  /** A new tool turn behind a user message or a result. */
  lemma {:induction false} OpenNew(out: seq<Message>, msg: Message)
    requires Sanitary(out) && IsToolTurn(msg) && Placed(out + [msg], |out|)
    ensures OpenTurn(out + [msg], |out|, CallIds(msg.toolCalls)) && SanitaryBut(out + [msg], |out|)
  {
    SanitaryGrows(out, msg, |out|);
  }

  lemma {:induction false} AcceptResult(p: Progress, msg: Message)
    requires InOrder(p) && msg.role == Tool && p.pending.Open?
    ensures InOrder(Accept(p, msg))
  {
    var rest := p.pending.unanswered;
    var t :| OpenTurn(p.out, t, rest) && SanitaryBut(p.out, t);
    ResultGrows(p.out, t, rest, msg);
    if rest == [] {
      AnswerExtra(p.out, t, msg);
    } else if msg.toolCallID in rest {
      AnswerOne(p.out, t, rest, msg);
    }
  }

  lemma {:induction false} AcceptInOrder(p: Progress, msg: Message)
    requires InOrder(p)
    ensures InOrder(Accept(p, msg))
  {
    if msg.role == Tool {
      if p.pending.Open? {
        AcceptResult(p, msg);
      }
    } else if msg.role != System {
      FlushInOrder(p);
      var f := Flush(p);
      if !IsToolTurn(msg) {
        SanitaryGrows(f.out, msg, |f.out|);
      } else if Accept(p, msg) != f {
        OpenNew(f.out, msg);
      }
    }
  }

  lemma {:induction false} RunInOrder(h: seq<Message>)
    ensures InOrder(Run(h))
  {
    if h != [] {
      RunInOrder(h[..|h| - 1]);
      AcceptInOrder(Run(h[..|h| - 1]), h[|h| - 1]);
    }
  }

  /** Whatever the history, the sanitiser's output has the format providers accept. */
  lemma {:induction false} SanitizeIsSanitary(h: seq<Message>)
    ensures Sanitary(Sanitize(h))
  {
    RunInOrder(h);
    FlushInOrder(Run(h));
  }

  // ------------------------------------------------------------------ sanitary and nearly sanitary histories

  /** Tool turns and their results. */
  predicate IsExchange(m: Message) { m.role == Tool || IsToolTurn(m) }

  /** Sanitary but for the place of tool turns, which may also follow plain messages of any role. */
  ghost predicate Chained(s: seq<Message>) {
    && (forall i :: 0 <= i < |s| ==> s[i].role != System)
    && (forall i :: 0 <= i < |s| && IsExchange(s[i]) ==> 0 < i)
    && (forall i :: 0 < i < |s| && s[i].role == Tool ==> IsExchange(s[i - 1]))
    && (forall i :: 0 < i < |s| && IsToolTurn(s[i]) ==> !IsToolTurn(s[i - 1]))
    && (forall i :: 0 <= i < |s| ==> TurnAnswered(s, i))
  }

  /**
   A plain message is kept.  A tool exchange is kept when the chain of exchanges it belongs to
   directly follows a user message.
   */
  predicate Keeps(s: seq<Message>, i: nat)
    requires i < |s|
  {
    if !IsExchange(s[i]) then true
    else if i == 0 then false
    else if !IsExchange(s[i - 1]) then s[i - 1].role == User
    else Keeps(s, i - 1)
  }

  function Kept(s: seq<Message>, k: nat): seq<Message>
    requires k <= |s|
  {
    if k == 0 then [] else Kept(s, k - 1) + if Keeps(s, k - 1) then [s[k - 1]] else []
  }

  /** After k messages the sanitiser knows the current tool turn, unless it dropped it. */
  ghost predicate Tracks(s: seq<Message>, k: nat, p: Progress)
    requires k <= |s|
  {
    && p.out == Kept(s, k)
    && (k == 0 || !IsExchange(s[k - 1]) || !Keeps(s, k - 1) ==> p.pending.Closed?)
    && (0 < k && IsExchange(s[k - 1]) && Keeps(s, k - 1) ==>
          p.pending.Open? && exists t :: OpenTurn(s[..k], t, p.pending.unanswered))
    && (0 < k && !Keeps(s, k - 1) ==> p.out != [] && IsPlain(Last(p.out)) && Last(p.out).role != User)
  }

  function Last(s: seq<Message>): Message
    requires s != []
  {
    s[|s| - 1]
  }

  /** The answers of a turn that is complete in s cannot be missing from a prefix that goes past them. */
  lemma {:induction false} NextAnswers(s: seq<Message>, k: nat, t: int, rest: seq<string>)
    requires k <= |s| && OpenTurn(s[..k], t, rest) && TurnAnswered(s, t) && rest != []
    ensures k < |s| && s[k].role == Tool && s[k].toolCallID in rest
  {
    var ids := CallIds(s[t].toolCalls);
    assert s[..k][t] == s[t];
    assert k == t + 1 + |ids| - |rest|;
    assert !HasAnswer(s[..k], t, s[k].toolCallID, |ids| - |rest|);
  }

  /** The next message of a tool turn that is still open is taken as a result. */
  lemma {:induction false} ResultAccepted(s: seq<Message>, k: nat, p: Progress, t: int)
    requires 0 < k < |s| && p.pending.Open? && s[k].role == Tool
    requires OpenTurn(s[..k], t, p.pending.unanswered) && TurnAnswered(s, t)
    ensures var r := Accept(p, s[k]);
            r.out == p.out + [s[k]] && r.pending.Open? && OpenTurn(s[..k + 1], t, r.pending.unanswered)
  {
    var rest := p.pending.unanswered;
    assert s[..k + 1] == s[..k] + [s[k]];
    if rest == [] {
      AnswerExtra(s[..k], t, s[k]);
    } else {
      NextAnswers(s, k, t, rest);
      AnswerOne(s[..k], t, rest, s[k]);
    }
  }

  lemma {:induction false} TrackKeptResult(s: seq<Message>, k: nat, p: Progress)
    requires Chained(s) && 0 < k < |s| && Tracks(s, k, p) && s[k].role == Tool && Keeps(s, k - 1)
    ensures Tracks(s, k + 1, Accept(p, s[k]))
  {
    var t :| OpenTurn(s[..k], t, p.pending.unanswered);
    ResultAccepted(s, k, p, t);
  }

  lemma {:induction false} FlushTracked(s: seq<Message>, k: nat, p: Progress)
    requires Chained(s) && k <= |s| && Tracks(s, k, p) && (k < |s| ==> s[k].role != Tool)
    ensures Flush(p) == Progress(Kept(s, k), Closed)
  {
    if p.pending.Open? {
      var rest := p.pending.unanswered;
      var t :| OpenTurn(s[..k], t, rest);
      if rest != [] {
        NextAnswers(s, k, t, rest);
      }
      assert p.out + Placeholders([]) == p.out;
    }
  }

  lemma {:induction false} TrackOther(s: seq<Message>, k: nat, p: Progress)
    requires Chained(s) && k < |s| && Tracks(s, k, p) && s[k].role != Tool
    ensures Tracks(s, k + 1, Accept(p, s[k]))
  {
    FlushTracked(s, k, p);
    if IsToolTurn(s[k]) {
      if Keeps(s, k) {
        assert s[..k + 1] == s[..k] + [s[k]];
        assert OpenTurn(s[..k + 1], k, CallIds(s[k].toolCalls));
      }
    }
  }

  lemma {:induction false} TrackRun(s: seq<Message>, k: nat)
    requires Chained(s) && k <= |s|
    ensures Tracks(s, k, Run(s[..k]))
  {
    if k > 0 {
      TrackRun(s, k - 1);
      assert s[..k][..k - 1] == s[..k - 1] && s[..k][k - 1] == s[k - 1];
      if s[k - 1].role != Tool {
        TrackOther(s, k - 1, Run(s[..k - 1]));
      } else if Keeps(s, k - 2) {
        TrackKeptResult(s, k - 1, Run(s[..k - 1]));
      }
    }
  }

  /** A nearly sanitary history loses just the chains of exchanges that do not follow the user. */
  lemma {:induction false} SanitizeChained(s: seq<Message>)
    requires Chained(s)
    ensures Sanitize(s) == Kept(s, |s|)
  {
    TrackRun(s, |s|);
    assert s[..|s|] == s;
    FlushTracked(s, |s|, Run(s));
  }

  lemma {:induction false} SanitaryKeeps(s: seq<Message>, k: nat)
    requires Sanitary(s) && k <= |s|
    ensures Kept(s, k) == s[..k] && (k > 0 ==> Keeps(s, k - 1))
  {
    if k > 0 {
      assert Placed(s, k - 1);
      SanitaryKeeps(s, k - 1);
    }
  }

  lemma {:induction false} SanitaryIsChained(s: seq<Message>)
    requires Sanitary(s)
    ensures Chained(s)
  {
    assert forall i :: 0 <= i < |s| ==> Placed(s, i);
    forall i | 0 <= i < |s|
      ensures s[i].role != System && (IsExchange(s[i]) ==> 0 < i)
      ensures 0 < i && s[i].role == Tool ==> IsExchange(s[i - 1])
      ensures 0 < i && IsToolTurn(s[i]) ==> !IsToolTurn(s[i - 1])
    {
      assert Placed(s, i);
    }
  }

  /** The sanitiser leaves a history alone exactly when it already has the accepted format. */
  lemma {:induction false} SanitizeFixpointIff(s: seq<Message>)
    ensures Sanitize(s) == s <==> Sanitary(s)
  {
    SanitizeIsSanitary(s);
    if Sanitary(s) {
      SanitaryIsChained(s);
      SanitizeChained(s);
      SanitaryKeeps(s, |s|);
    }
  }

  lemma {:induction false} SanitizeIdempotent(h: seq<Message>)
    ensures Sanitize(Sanitize(h)) == Sanitize(h)
  {
    SanitizeIsSanitary(h);
    SanitizeFixpointIff(Sanitize(h));
  }

  // ------------------------------------------------------------------ what is kept

  function Select(s: seq<Message>, keep: Message -> bool): seq<Message> {
    if s == [] then []
    else Select(s[..|s| - 1], keep) + if keep(s[|s| - 1]) then [s[|s| - 1]] else []
  }

  lemma {:induction false} SelectConcat(a: seq<Message>, b: seq<Message>, keep: Message -> bool)
    ensures Select(a + b, keep) == Select(a, keep) + Select(b, keep)
  {
    if b == [] {
      assert a + b == a;
    } else {
      SelectConcat(a, b[..|b| - 1], keep);
      assert (a + b)[..|a + b| - 1] == a + b[..|b| - 1];
    }
  }

  lemma {:induction false} SelectSnoc(s: seq<Message>, m: Message, keep: Message -> bool)
    ensures Select(s + [m], keep) == Select(s, keep) + if keep(m) then [m] else []
  {
    assert (s + [m])[..|s|] == s;
  }

  lemma {:induction false} SelectNone(s: seq<Message>, keep: Message -> bool)
    requires forall m :: m in s ==> !keep(m)
    ensures Select(s, keep) == []
  {
    if s != [] {
      SelectNone(s[..|s| - 1], keep);
    }
  }

  lemma {:induction false} AcceptKeepsPlain(p: Progress, msg: Message)
    ensures Select(Accept(p, msg).out, IsPlain) == Select(p.out, IsPlain) + if IsPlain(msg) then [msg] else []
  {
    FlushKeepsPlain(p);
    SelectSnoc(p.out, msg, IsPlain);
    SelectSnoc(Flush(p).out, msg, IsPlain);
  }

  lemma {:induction false} FlushKeepsPlain(p: Progress)
    ensures Select(Flush(p).out, IsPlain) == Select(p.out, IsPlain)
  {
    if p.pending.Open? {
      var ph := Placeholders(p.pending.unanswered);
      SelectConcat(p.out, ph, IsPlain);
      SelectNone(ph, IsPlain);
    }
  }

  lemma {:induction false} RunKeepsPlain(h: seq<Message>)
    ensures Select(Run(h).out, IsPlain) == Select(h, IsPlain)
  {
    if h != [] {
      RunKeepsPlain(h[..|h| - 1]);
      AcceptKeepsPlain(Run(h[..|h| - 1]), h[|h| - 1]);
    }
  }

  /** Every plain message is kept, in order, and no other plain message appears. */
  lemma {:induction false} SanitizeKeepsPlain(h: seq<Message>)
    ensures Select(Sanitize(h), IsPlain) == Select(h, IsPlain)
  {
    RunKeepsPlain(h);
    FlushKeepsPlain(Run(h));
  }

  predicate IsGenuine(m: Message) { m != Placeholder(m.toolCallID) }

  lemma {:induction false} FlushAddsNothingGenuine(p: Progress)
    ensures Select(Flush(p).out, IsGenuine) == Select(p.out, IsGenuine)
  {
    if p.pending.Open? {
      var ph := Placeholders(p.pending.unanswered);
      SelectConcat(p.out, ph, IsGenuine);
      SelectNone(ph, IsGenuine);
    }
  }

  lemma {:induction false} SnocAddsOnly(out: seq<Message>, msg: Message, h: seq<Message>)
    requires Subseq(Select(out, IsGenuine), h)
    ensures Subseq(Select(out, IsGenuine), h + [msg]) && Subseq(Select(out + [msg], IsGenuine), h + [msg])
  {
    var kept := Select(out, IsGenuine);
    SelectSnoc(out, msg, IsGenuine);
    SubseqPad(kept, [], h, [msg]);
    assert [] + h + [msg] == h + [msg];
    SubseqConcat(kept, h, [msg], [msg]);
    assert kept + [] == kept;
  }

  lemma {:induction false} AcceptAddsOnly(p: Progress, msg: Message, h: seq<Message>)
    requires Subseq(Select(p.out, IsGenuine), h)
    ensures Subseq(Select(Accept(p, msg).out, IsGenuine), h + [msg])
  {
    FlushAddsNothingGenuine(p);
    SnocAddsOnly(p.out, msg, h);
    SnocAddsOnly(Flush(p).out, msg, h);
  }

  lemma {:induction false} RunAddsOnly(h: seq<Message>)
    ensures Subseq(Select(Run(h).out, IsGenuine), h)
  {
    if h != [] {
      RunAddsOnly(h[..|h| - 1]);
      AcceptAddsOnly(Run(h[..|h| - 1]), h[|h| - 1], h[..|h| - 1]);
      assert h[..|h| - 1] + [h[|h| - 1]] == h;
    }
  }

  /** Apart from placeholders, the output is the input with messages dropped. */
  lemma {:induction false} SanitizeAddsOnlyPlaceholders(h: seq<Message>)
    ensures Subseq(Select(Sanitize(h), IsGenuine), h)
  {
    RunAddsOnly(h);
    FlushAddsNothingGenuine(Run(h));
  }

  // ------------------------------------------------------------------ the loop

  /** The ids of order that are still in the pending set. */
  function Remaining(order: seq<string>, pending: set<string>): (r: seq<string>)
    ensures forall x :: x in r <==> x in order && x in pending
  {
    if order == [] then []
    else
      var head := Remaining(order[..|order| - 1], pending);
      var last := order[|order| - 1];
      assert forall x :: x in order <==> x in order[..|order| - 1] || x == last;
      if last in pending then head + [last] else head
  }

  lemma {:induction false} RemainingLess(order: seq<string>, pending: set<string>, id: string)
    ensures Remaining(order, pending - {id}) == Without(Remaining(order, pending), id)
  {
    if order != [] {
      RemainingLess(order[..|order| - 1], pending, id);
      var head, last := Remaining(order[..|order| - 1], pending), order[|order| - 1];
      assert (head + [last])[..|head|] == head;
    }
  }

  lemma {:induction false} RemainingNone(order: seq<string>)
    ensures Remaining(order, {}) == []
  {
    if order != [] {
      RemainingNone(order[..|order| - 1]);
    }
  }

  lemma {:induction false} RemainingAll(order: seq<string>, pending: set<string>)
    requires forall x :: x in order ==> x in pending
    ensures Remaining(order, pending) == order
  {
    if order != [] {
      RemainingAll(order[..|order| - 1], pending);
    }
  }

  /** The sanitiser's local variables: pending is nil exactly when isNil. */
  ghost predicate Represents(
      p: Progress, sanitized: seq<Message>, isNil: bool, pending: set<string>, order: seq<string>)
  {
    && p.out == sanitized && (forall x :: x in pending ==> x in order)
    && p.pending == if isNil then Closed else Open(Remaining(order, pending))
  }

  /** flushPendingToolCalls: one placeholder for every id that is still pending, in call order. */
  method FlushPendingToolCalls(sanitized: seq<Message>, pending: set<string>, order: seq<string>)
      returns (out: seq<Message>)
    ensures out == sanitized + Placeholders(Remaining(order, pending))
  {
    out := sanitized;
    for i := 0 to |order|
      invariant out == sanitized + Placeholders(Remaining(order[..i], pending))
    {
      assert order[..i + 1][..i] == order[..i];
      if order[i] in pending {
        out := out + [Message(Tool, PLACEHOLDER, [], order[i])];
        var head := Remaining(order[..i], pending);
        assert Placeholders(head + [order[i]]) == Placeholders(head) + [Placeholder(order[i])];
      }
    }
    assert order[..|order|] == order;
  }

  method CollectCallIds(calls: seq<ToolCall>) returns (pending: set<string>, order: seq<string>)
    ensures order == CallIds(calls) && forall x :: x in pending <==> x in order
  {
    pending, order := {}, [];
    for i := 0 to |calls|
      invariant order == CallIds(calls[..i]) && forall x :: x in pending <==> x in order
    {
      assert calls[..i + 1][..i] == calls[..i];
      var id := calls[i].id;
      if id != "" && id !in pending {
        pending, order := pending + {id}, order + [id];
      }
    }
    assert calls[..|calls|] == calls;
  }

  /** The source's loop over the history computes Sanitize. */
  method SanitizeHistoryForProvider(history: seq<Message>) returns (sanitized: seq<Message>)
    ensures sanitized == Sanitize(history) && Sanitary(sanitized)
  {
    sanitized := [];
    var isNil, pending, order := true, {}, [];
    for i := 0 to |history|
      invariant Represents(Run(history[..i]), sanitized, isNil, pending, order)
    {
      var msg := history[i];
      ghost var p := Run(history[..i]);
      assert history[..i + 1][..i] == history[..i];
      assert Run(history[..i + 1]) == Accept(p, msg);
      if msg.role == Tool {
        if !isNil {
          if pending == {} {
            RemainingNone(order);
            sanitized := sanitized + [msg];
          } else if msg.toolCallID != "" && msg.toolCallID in pending {
            RemainingLess(order, pending, msg.toolCallID);
            pending := pending - {msg.toolCallID};
            sanitized := sanitized + [msg];
          } else {
            ghost var x :| x in pending;
            assert x in Remaining(order, pending);
          }
        }
      } else if msg.role != System {
        if !isNil {
          sanitized := FlushPendingToolCalls(sanitized, pending, order);
        }
        isNil, pending, order := true, {}, [];
        if !IsToolTurn(msg) {
          sanitized := sanitized + [msg];
        } else if sanitized != []
            && (sanitized[|sanitized| - 1].role == User || sanitized[|sanitized| - 1].role == Tool) {
          pending, order := CollectCallIds(msg.toolCalls);
          RemainingAll(order, pending);
          isNil := false;
          sanitized := sanitized + [msg];
        }
      }
    }
    assert history[..|history|] == history;
    if !isNil {
      sanitized := FlushPendingToolCalls(sanitized, pending, order);
    }
    SanitizeIsSanitary(history);
  }
}
