/**
 The LLM iteration runner (pkg/agent/loop.go, pkg/agent/loop_tools.go) with the compaction that a
 context-window error triggers (pkg/agent/loop_compaction.go): every message list it hands to a
 provider pairs tool calls with their results.
 */
module Runner {
  import opened Text
  import opened Transcript
  import opened Pruner

  // ------------------------------------------------------------------ what a provider is promised

  /** Some result for id comes before the next message that is not a result. */
  ghost predicate AnsweredInTurn(s: seq<Message>, i: int, id: string) {
    exists k :: 0 <= i < k < |s| && s[k].toolCallID == id && forall l :: i < l <= k ==> s[l].role == Tool
  }

  ghost predicate Paired(s: seq<Message>) {
    && (forall i :: 0 <= i < |s| && s[i].role == Tool ==> 0 < i && IsExchange(s[i - 1]))
    && (forall i, id :: 0 <= i < |s| && IsToolTurn(s[i]) && id in CallIds(s[i].toolCalls) ==> AnsweredInTurn(s, i, id))
  }

  /** A list fit to be sent: one system message in front, and the calls of every turn answered. */
  ghost predicate Ready(s: seq<Message>) {
    s != [] && s[0].role == System && (forall i :: 0 < i < |s| ==> s[i].role != System) && Paired(s)
  }

  /** The lists fit to be sent. */
  ghost function ReadyLists(): iset<seq<Message>> { iset s: seq<Message> | Ready(s) }

  lemma {:induction false} AnsweredGrows(s: seq<Message>, more: seq<Message>, i: int, id: string)
    requires AnsweredInTurn(s, i, id)
    ensures AnsweredInTurn(s + more, i, id)
  {
    var k :| 0 <= i < k < |s| && s[k].toolCallID == id && forall l :: i < l <= k ==> s[l].role == Tool;
    assert (s + more)[k] == s[k];
  }

  lemma {:induction false} ReadyGrowsPlain(s: seq<Message>, m: Message)
    requires Ready(s) && IsPlain(m)
    ensures Ready(s + [m])
  {
    forall i, id | 0 <= i < |s + [m]| && IsToolTurn((s + [m])[i]) && id in CallIds((s + [m])[i].toolCalls)
      ensures AnsweredInTurn(s + [m], i, id)
    {
      AnsweredGrows(s, [m], i, id);
    }
  }

  lemma {:induction false} CallIdIndex(calls: seq<ToolCall>, id: string) returns (k: nat)
    requires id in CallIds(calls)
    ensures k < |calls| && calls[k].id == id
  {
    if calls[|calls| - 1].id == id {
      return |calls| - 1;
    }
    k := CallIdIndex(calls[..|calls| - 1], id);
  }

  datatype Reply = Reply(content: string, calls: seq<ToolCall>)

  /** One result for each requested call, in the order of the calls. */
  function Results(calls: seq<ToolCall>, texts: seq<string>): seq<Message>
    requires |texts| == |calls|
  {
    seq(|calls|, i requires 0 <= i < |calls| => Message(Tool, texts[i], [], calls[i].id))
  }

  /** A tool turn with its results. */
  function Turn(reply: Reply, texts: seq<string>): seq<Message>
    requires |texts| == |reply.calls|
  {
    [Message(Assistant, reply.content, reply.calls, "")] + Results(reply.calls, texts)
  }

  lemma {:induction false} TurnAnswersItself(s: seq<Message>, reply: Reply, texts: seq<string>, id: string)
    requires |texts| == |reply.calls| && id in CallIds(reply.calls)
    ensures AnsweredInTurn(s + Turn(reply, texts), |s|, id)
  {
    var results := Results(reply.calls, texts);
    var r := s + Turn(reply, texts);
    var k := CallIdIndex(reply.calls, id);
    var l := |s| + 1 + k;
    assert r[l] == results[k];
    assert forall m :: |s| < m <= l ==> r[m] == results[m - |s| - 1];
  }

  lemma {:induction false} TurnPlacesResults(s: seq<Message>, reply: Reply, texts: seq<string>, i: nat)
    requires Ready(s) && reply.calls != [] && |texts| == |reply.calls| && i < |s| + 1 + |texts|
    ensures var r := s + Turn(reply, texts);
            && (r[i].role == Tool ==> 0 < i && IsExchange(r[i - 1]))
            && (0 < i ==> r[i].role != System)
            && (|s| < i ==> !IsToolTurn(r[i]))
  {
    var results := Results(reply.calls, texts);
    var r := s + Turn(reply, texts);
    if |s| < i {
      assert r[i] == results[i - |s| - 1];
      assert i - 1 == |s| || r[i - 1] == results[i - |s| - 2];
    }
  }

  lemma {:induction false} ReadyGrowsTurn(s: seq<Message>, reply: Reply, texts: seq<string>)
    requires Ready(s) && reply.calls != [] && |texts| == |reply.calls|
    ensures Ready(s + Turn(reply, texts))
  {
    var r := s + Turn(reply, texts);
    forall i | 0 <= i < |r|
      ensures r[i].role == Tool ==> 0 < i && IsExchange(r[i - 1])
      ensures 0 < i ==> r[i].role != System
    {
      TurnPlacesResults(s, reply, texts, i);
    }
    forall i, id | 0 <= i < |r| && IsToolTurn(r[i]) && id in CallIds(r[i].toolCalls)
      ensures AnsweredInTurn(r, i, id)
    {
      TurnPlacesResults(s, reply, texts, i);
      if i < |s| {
        AnsweredGrows(s, Turn(reply, texts), i, id);
      } else {
        TurnAnswersItself(s, reply, texts, id);
      }
    }
  }

  lemma {:induction false} TurnAnsweredBehind(x: Message, s: seq<Message>, i: nat, id: string)
    requires i < |s| && TurnAnswered(s, i) && IsToolTurn(s[i]) && id in CallIds(s[i].toolCalls)
    ensures AnsweredInTurn([x] + s, i + 1, id)
  {
    var n := |CallIds(s[i].toolCalls)|;
    assert HasAnswer(s, i, id, n);
    var k :| 0 <= i < k <= i + n && k < |s| && s[k].role == Tool && s[k].toolCallID == id;
    var l := k + 1;
    assert ([x] + s)[l] == s[k];
    assert forall m :: i + 1 < m <= l ==> ([x] + s)[m] == s[m - 1];
  }

  lemma {:induction false} SanitaryIsReady(system: Message, s: seq<Message>)
    requires Sanitary(s) && system.role == System
    ensures Ready([system] + s)
  {
    var r := [system] + s;
    SanitaryIsChained(s);
    assert forall i :: 0 < i < |r| ==> r[i] == s[i - 1];
    forall i, id | 0 <= i < |r| && IsToolTurn(r[i]) && id in CallIds(r[i].toolCalls)
      ensures AnsweredInTurn(r, i, id)
    {
      TurnAnsweredBehind(system, s, i - 1, id);
    }
  }

  // ------------------------------------------------------------------ assembling messages

  /** The context builder: system prompt, pruning settings, and the two tests pruning depends on. */
  datatype Builder = Builder(prompt: string, cfg: Settings, over: seq<Message> -> bool, ack: string -> bool)

  /** BuildMessagesForSession, message assembly only. */
  function BuildMessages(b: Builder, history: seq<Message>, currentMessage: string): seq<Message> {
    var kept := Sanitize(Prune(Sanitize(history), b.cfg, b.over, b.ack));
    var messages := [Message(System, b.prompt, [], "")] + kept;
    if TrimSpace(currentMessage) != "" then messages + [Message(User, currentMessage, [], "")] else messages
  }

  lemma {:induction false} BuildIsReady(b: Builder, history: seq<Message>, currentMessage: string)
    ensures Ready(BuildMessages(b, history, currentMessage))
  {
    var kept := Sanitize(Prune(Sanitize(history), b.cfg, b.over, b.ack));
    SanitizeIsSanitary(Prune(Sanitize(history), b.cfg, b.over, b.ack));
    var system := Message(System, b.prompt, [], "");
    SanitaryIsReady(system, kept);
    ReadyGrowsPlain([system] + kept, Message(User, currentMessage, [], ""));
  }

  method BuildMessagesForSession(
      b: Builder, history: seq<Message>, currentMessage: string) returns (messages: seq<Message>)
    ensures messages == BuildMessages(b, history, currentMessage) && messages in ReadyLists()
  {
    BuildIsReady(b, history, currentMessage);
    var kept := SanitizeHistoryForProvider(history);
    kept := PruneHistoryForContext(kept, b.cfg, b.over, b.ack);
    kept := SanitizeHistoryForProvider(kept);
    messages := [Message(System, b.prompt, [], "")] + kept;
    if TrimSpace(currentMessage) != "" {
      messages := messages + [Message(User, currentMessage, [], "")];
    }
  }

  // ------------------------------------------------------------------ compaction

  /** The tokens of the messages from i on. */
  function TokensFrom(history: seq<Message>, i: nat, tokens: Message -> nat): nat
    requires i <= |history|
    decreases |history| - i
  {
    if i == |history| then 0 else tokens(history[i]) + TokensFrom(history, i + 1, tokens)
  }

  /**
   The cut leaves the shortest end of the history that has enough tokens; when even all but the
   first message have too few, it leaves the last four messages.
   */
  predicate CutsAt(history: seq<Message>, k: int, tokens: Message -> nat, keepRecentTokens: int) {
    && 1 <= k < |history|
    && if TokensFrom(history, 1, tokens) >= keepRecentTokens
       then TokensFrom(history, k, tokens) >= keepRecentTokens
            && (k + 1 < |history| ==> TokensFrom(history, k + 1, tokens) < keepRecentTokens)
       else k == |history| - 4
  }

  ghost function Cuts(history: seq<Message>, tokens: Message -> nat, keepRecentTokens: int): iset<int> {
    iset k: int | CutsAt(history, k, tokens, keepRecentTokens)
  }

  method KeepStart(history: seq<Message>, tokens: Message -> nat, keepRecentTokens: int) returns (keepStart: int)
    requires |history| > 6
    ensures CutsAt(history, keepStart, tokens, keepRecentTokens)
  {
    keepStart := |history| - 4;
    var acc, i := 0, |history| - 1;
    while i >= 1
      invariant 0 <= i < |history| && keepStart == |history| - 4
      invariant acc == TokensFrom(history, i + 1, tokens)
      invariant i + 1 < |history| ==> acc < keepRecentTokens
    {
      acc := acc + tokens(history[i]);
      if acc >= keepRecentTokens {
        keepStart := i;
        TokensGrow(history, 1, i, tokens);
        return;
      }
      i := i - 1;
    }
  }

  lemma {:induction false} TokensGrow(history: seq<Message>, i: nat, k: nat, tokens: Message -> nat)
    requires i <= k <= |history|
    ensures TokensFrom(history, i, tokens) >= TokensFrom(history, k, tokens)
    decreases k - i
  {
    if i < k {
      TokensGrow(history, i + 1, k, tokens);
    }
  }

  ghost predicate ProperSuffix(a: seq<Message>, b: seq<Message>) {
    0 < |a| < |b| && a == b[|b| - |a|..]
  }

  /** What the safeguard meets: it is not needed, no summary can be had, or a summary is written. */
  datatype Compaction = NotNeeded | Cancelled | Summarised

  /** No summary can be had, and there is enough history to need one. */
  predicate Fails(session: seq<Message>, compaction: Compaction) { compaction.Cancelled? && |Sanitize(session)| > 6 }

  /** A summary replaces the front of the sanitised history when there is enough of it. */
  method CompactWithSafeguard(
      session: seq<Message>, compaction: Compaction, tokens: Message -> nat, keepRecentTokens: int)
      returns (compacted: bool, kept: seq<Message>, failed: bool)
    ensures failed == Fails(session, compaction)
    ensures compacted <==> compaction.Summarised? && |Sanitize(session)| > 6
    ensures compacted ==> ProperSuffix(kept, Sanitize(session))
                          && |Sanitize(session)| - |kept| in Cuts(Sanitize(session), tokens, keepRecentTokens)
  {
    var history := SanitizeHistoryForProvider(session);
    if |history| <= 6 || compaction.NotNeeded? {
      return false, [], false;
    }
    if compaction.Cancelled? {
      return false, [], true;
    }
    var keepStart := KeepStart(history, tokens, keepRecentTokens);
    return true, history[keepStart..], false;
  }

  // ------------------------------------------------------------------ one run

  datatype Outcome = Answer(reply: Reply) | Timeout | ContextWindow(compaction: Compaction) | Failure

  datatype ToolOutcome = ToolOutcome(forLLM: string, fingerprint: string)

  /** What the outside answers, indexed by how many lists have been handed to a provider. */
  datatype Outside = Outside(outcome: nat -> Outcome, steering: nat -> seq<string>, tool: (nat, nat) -> ToolOutcome,
                             wallTimeExceeded: nat -> bool, tokens: Message -> nat, keepRecentTokens: int)

  datatype Signature = Signature(name: string, arguments: string, fingerprint: string)

  /** How many of the latest recorded calls, from index n down, repeat tc with the same result. */
  function Repeats(recent: seq<Signature>, n: nat, tc: ToolCall, lastResult: string): nat
    requires n <= |recent|
  {
    if n == 0 || recent[n - 1].name != tc.name || recent[n - 1].arguments != tc.arguments then 0
    else
      var result := if lastResult == "" then recent[n - 1].fingerprint else lastResult;
      if recent[n - 1].fingerprint != result then 0 else 1 + Repeats(recent, n - 1, tc, result)
  }

  /** The name of the first requested call that repeats three times or more, or "". */
  function LoopingTool(recent: seq<Signature>, calls: seq<ToolCall>): string {
    if calls == [] then ""
    else if Repeats(recent, |recent|, calls[0], "") >= 3 then calls[0].name
    else LoopingTool(recent, calls[1..])
  }

  /** A looping tool without a name goes unnoticed. */
  predicate Loops(recent: seq<Signature>, calls: seq<ToolCall>) { LoopingTool(recent, calls) != "" }

  const LOOP_NOTICE_HEAD := "Loop detected: '"
  const LOOP_NOTICE_TAIL :=
    "' called with same arguments 3+ times. " +
    "Try a different approach, use a different tool, or explain why you are stuck."

  function LoopNotice(tool: string): string { LOOP_NOTICE_HEAD + tool + LOOP_NOTICE_TAIL }

  ghost predicate AllReady(lists: seq<seq<Message>>) {
    forall i :: 0 <= i < |lists| ==> Ready(lists[i])
  }

  /** The texts of the n executions that follow the given provider call. */
  function Texts(outside: Outside, call: nat, n: nat): (r: seq<string>)
    ensures |r| == n
  {
    seq(n, i requires 0 <= i => outside.tool(call, i).forLLM)
  }

  function Notices(tool: string, n: nat): (r: seq<string>)
    ensures |r| == n
  {
    var notice := LoopNotice(tool);
    seq(n, i => notice)
  }

  function Signatures(outside: Outside, call: nat, toolCalls: seq<ToolCall>, n: nat): seq<Signature>
    requires n <= |toolCalls|
  {
    if n == 0 then []
    else
      var tc := toolCalls[n - 1];
      Signatures(outside, call, toolCalls, n - 1)
      + [Signature(tc.name, tc.arguments, outside.tool(call, n - 1).fingerprint)]
  }

  function Latest(recent: seq<Signature>): seq<Signature> {
    if |recent| > MAX_RECENT_TOOL_CALLS then recent[|recent| - MAX_RECENT_TOOL_CALLS..] else recent
  }

  /**
   How the list continues the one that the provider answered: with steering input, unchanged when the
   run is done, or with the requested turn and its results or the notices of a detected loop.
   */
  predicate Continues(
      outside: Outside, calls: nat, sent: seq<Message>, messages: seq<Message>, recent: seq<Signature>, done: bool)
    requires calls > 0 && outside.outcome(calls - 1).Answer?
  {
    var reply, inbox := outside.outcome(calls - 1).reply, outside.steering(calls);
    if inbox != [] then !done && messages == sent + Steered(inbox)
    else if done then messages == sent
    else
      reply.calls != [] &&
      messages == sent + if Loops(recent, reply.calls)
                         then Turn(reply, Notices(LoopingTool(recent, reply.calls), |reply.calls|))
                         else Turn(reply, Texts(outside, calls, |reply.calls|))
  }

  /** A provider error after which the call is made again, with the session as it was at that call. */
  predicate Retried(outcome: Outcome, session: seq<Message>) {
    outcome.Timeout? || (outcome.ContextWindow? && !Fails(session, outcome.compaction))
  }

  const MAX_RETRIES := 2
  const MAX_RECENT_TOOL_CALLS := 24

  class LlmIterationRunner {
    const builder: Builder
    const outside: Outside
    const maxIterations: nat
    const maxToolCallsPerRun: int

    var messages: seq<Message>
    var session: seq<Message>
    var iteration: nat
    var toolCallsUsed: nat
    var recentToolCalls: seq<Signature>
    var finalContent: string

    /** Every list handed to a provider so far. */
    ghost var handed: seq<seq<Message>>

    /** The session at each of these calls. */
    ghost var sessions: seq<seq<Message>>
    var calls: nat

    /** The list at hand and every list handed out are fit to be sent. */
    ghost predicate Sound()
      reads this`messages, this`handed, this`sessions, this`calls
    {
      && messages in ReadyLists() && |handed| == |sessions| == calls
      && (forall i :: 0 <= i < |handed| ==> handed[i] in ReadyLists())
    }

    ghost predicate WithinBudget()
      reads this`toolCallsUsed, this`recentToolCalls
    {
      && (maxToolCallsPerRun > 0 ==> toolCallsUsed <= maxToolCallsPerRun)
      && |recentToolCalls| <= MAX_RECENT_TOOL_CALLS
    }

    ghost predicate Valid()
      reads this
    {
      Sound() && WithinBudget()
    }

    /** The initial list is one that BuildMessagesForSession made. */
    constructor (builder: Builder, outside: Outside, maxIterations: nat, maxToolCallsPerRun: int,
                 session: seq<Message>, messages: seq<Message>)
      requires messages in ReadyLists()
      ensures Valid() && handed == [] && iteration == 0
      ensures this.session == session && this.messages == messages
      ensures this.maxIterations == maxIterations && this.maxToolCallsPerRun == maxToolCallsPerRun
      ensures this.builder == builder && this.outside == outside
    {
      this.builder, this.outside := builder, outside;
      this.maxIterations, this.maxToolCallsPerRun := maxIterations, maxToolCallsPerRun;
      this.messages, this.session := messages, session;
      iteration, toolCallsUsed, recentToolCalls, finalContent := 0, 0, [], "";
      handed, sessions, calls := [], [], 0;
    }

    /** One provider call on the current list. */
    method PerformLLMCall() returns (outcome: Outcome)
      requires Sound()
      modifies this`handed, this`sessions, this`calls
      ensures Sound() && handed == old(handed) + [messages] && outcome == outside.outcome(old(calls))
      ensures sessions == old(sessions) + [session]
    {
      handed, sessions := handed + [messages], sessions + [session];
      outcome := outside.outcome(calls);
      calls := calls + 1;
    }

    /**
     Compaction replaces the session by a proper suffix of its sanitised history, and the list by a
     fresh one built from it; otherwise both stay.
     */
    method HandleContextWindowRetry(compaction: Compaction) returns (again: bool)
      requires Sound()
      modifies this`messages, this`session
      ensures Sound() && again == !Fails(old(session), compaction)
      ensures (messages == old(messages) && session == old(session))
              || (ProperSuffix(session, Sanitize(old(session))) && messages == BuildMessages(builder, session, ""))
    {
      var compacted, kept, failed :=
        CompactWithSafeguard(session, compaction, outside.tokens, outside.keepRecentTokens);
      if compacted {
        session := kept;
        messages := BuildMessagesForSession(builder, session, "");
      }
      return !failed;
    }

    method CallLLMWithRetry() returns (reply: Reply, ok: bool)
      requires Sound()
      modifies this`handed, this`sessions, this`calls, this`messages, this`session
      ensures Sound()
      ensures old(handed) <= handed && |old(handed)| < |handed| <= |old(handed)| + MAX_RETRIES + 1
      ensures forall c :: old(calls) <= c < calls - 1 ==> Retried(outside.outcome(c), sessions[c])
      ensures if ok then outside.outcome(calls - 1) == Answer(reply) && messages == handed[calls - 1]
              else !outside.outcome(calls - 1).Answer?
                   && (Retried(outside.outcome(calls - 1), sessions[calls - 1]) ==>
                         calls == old(calls) + MAX_RETRIES + 1)
    {
      var retry := 0;
      while retry <= MAX_RETRIES
        invariant 0 <= retry <= MAX_RETRIES + 1 && Sound()
        invariant old(handed) <= handed && |handed| == |old(handed)| + retry
        invariant forall c :: old(calls) <= c < calls ==> Retried(outside.outcome(c), sessions[c])
      {
        var outcome := PerformLLMCall();
        if outcome.Answer? {
          return outcome.reply, true;
        }
        var again := outcome.Timeout? && retry < MAX_RETRIES;
        if outcome.ContextWindow? && retry < MAX_RETRIES {
          again := HandleContextWindowRetry(outcome.compaction);
        }
        if !again {
          return Reply("", []), false;
        }
        retry := retry + 1;
      }
      return Reply("", []), false;
    }

    /** Steering input becomes user messages; the reply at hand is then discarded. */
    method AbsorbSteeringMessages(inbox: seq<string>) returns (absorbed: bool)
      requires Sound()
      modifies this`messages, this`session
      ensures Sound() && absorbed == (inbox != [])
      ensures messages == old(messages) + Steered(inbox) && session == old(session) + Steered(inbox)
    {
      var added := SteeringMessages(inbox);
      ReadyGrowsSteered(messages, inbox);
      session := session + added;
      messages := messages + added;
      return inbox != [];
    }

    method DetectToolCallLoop(toolCalls: seq<ToolCall>) returns (tool: string)
      ensures tool == LoopingTool(recentToolCalls, toolCalls)
    {
      for j := 0 to |toolCalls|
        invariant LoopingTool(recentToolCalls, toolCalls) == LoopingTool(recentToolCalls, toolCalls[j..])
      {
        if Repeats(recentToolCalls, |recentToolCalls|, toolCalls[j], "") >= 3 {
          return toolCalls[j].name;
        }
      }
      return "";
    }

    /** A detected loop is answered by the runner itself, one notice for every call. */
    method HandleToolLoop(reply: Reply) returns (looping: bool)
      requires Sound() && reply.calls != []
      modifies this`messages
      ensures Sound() && looping == Loops(recentToolCalls, reply.calls)
      ensures messages == old(messages)
                          + if looping
                            then Turn(reply, Notices(LoopingTool(recentToolCalls, reply.calls), |reply.calls|)) else []
    {
      var tool := DetectToolCallLoop(reply.calls);
      looping := tool != "";
      if !looping {
        assert messages + [] == messages;
        return;
      }
      var notices := Notices(tool, |reply.calls|);
      ReadyGrowsTurn(messages, reply, notices);
      var turn := TurnMessages(reply, notices);
      messages := messages + turn;
    }

    /** The signatures of the executed calls, of which the latest MAX_RECENT_TOOL_CALLS stay. */
    method RecordRecentToolCalls(toolCalls: seq<ToolCall>)
      requires WithinBudget()
      modifies this`recentToolCalls
      ensures WithinBudget()
      ensures recentToolCalls == Latest(old(recentToolCalls) + Signatures(outside, calls, toolCalls, |toolCalls|))
    {
      ghost var before := recentToolCalls;
      for i := 0 to |toolCalls|
        invariant recentToolCalls == before + Signatures(outside, calls, toolCalls, i)
      {
        var executed, tc := outside.tool(calls, i), toolCalls[i];
        recentToolCalls := recentToolCalls + [Signature(tc.name, tc.arguments, executed.fingerprint)];
      }
      if |recentToolCalls| > MAX_RECENT_TOOL_CALLS {
        recentToolCalls := recentToolCalls[|recentToolCalls| - MAX_RECENT_TOOL_CALLS..];
      }
    }

    /** The turn and its results are appended to the list and to the session. */
    method ExecuteAndApply(reply: Reply)
      requires Valid() && reply.calls != []
      requires maxToolCallsPerRun > 0 ==> toolCallsUsed + |reply.calls| <= maxToolCallsPerRun
      modifies this`messages, this`session, this`toolCallsUsed, this`recentToolCalls
      ensures Valid() && toolCallsUsed == old(toolCallsUsed) + |reply.calls|
      ensures messages == old(messages) + Turn(reply, Texts(outside, calls, |reply.calls|))
      ensures session == old(session) + Turn(reply, Texts(outside, calls, |reply.calls|))
    {
      ReadyGrowsTurn(messages, reply, Texts(outside, calls, |reply.calls|));
      toolCallsUsed := toolCallsUsed + |reply.calls|;
      RecordRecentToolCalls(reply.calls);
      var turn := TurnMessages(reply, Texts(outside, calls, |reply.calls|));
      messages, session := messages + turn, session + turn;
    }

    /** A direct answer and an exceeded budget stop the run; a tool turn extends the list. */
    method HandleLLMResponse(reply: Reply) returns (stop: bool)
      requires Valid()
      modifies this`messages, this`session, this`toolCallsUsed, this`recentToolCalls, this`finalContent
      ensures Valid() && (reply.calls == [] ==> stop && finalContent == reply.content)
      ensures stop == (reply.calls == []
                       || (maxToolCallsPerRun > 0 && old(toolCallsUsed) + |reply.calls| > maxToolCallsPerRun))
      ensures stop ==> messages == old(messages) && session == old(session)
      ensures !stop ==> if Loops(old(recentToolCalls), reply.calls)
                        then session == old(session) && messages == old(messages)
                               + Turn(reply, Notices(LoopingTool(old(recentToolCalls), reply.calls), |reply.calls|))
                        else messages == old(messages) + Turn(reply, Texts(outside, calls, |reply.calls|))
                             && session == old(session) + Turn(reply, Texts(outside, calls, |reply.calls|))
    {
      if reply.calls == [] {
        finalContent := reply.content;
        return true;
      }
      if maxToolCallsPerRun > 0 && toolCallsUsed + |reply.calls| > maxToolCallsPerRun {
        finalContent := "RESOURCE_BUDGET_EXCEEDED: tool call budget exceeded";
        return true;
      }
      var looping := HandleToolLoop(reply);
      if !looping {
        ExecuteAndApply(reply);
      }
      return false;
    }

    /** One turn of the run loop. */
    method Iterate() returns (done: bool, ok: bool)
      requires Valid() && iteration < maxIterations
      modifies this
      ensures Valid() && iteration == old(iteration) + 1 && old(handed) <= handed
      ensures |handed| <= |old(handed)| + MAX_RETRIES + 1
      ensures ok && outside.wallTimeExceeded(iteration) ==>
                done && messages == old(messages) && session == old(session) && handed == old(handed)
      ensures ok && !outside.wallTimeExceeded(iteration) ==>
                && |old(handed)| < |handed| && outside.outcome(calls - 1).Answer?
                && Continues(outside, calls, handed[calls - 1], messages, old(recentToolCalls), done)
    {
      iteration := iteration + 1;
      if outside.wallTimeExceeded(iteration) {
        finalContent := "RESOURCE_BUDGET_EXCEEDED: run wall time exceeded";
        return true, true;
      }
      var reply, answered := CallLLMWithRetry();
      if !answered {
        return true, false;
      }
      done := Proceed(reply);
      ok := true;
    }

    /** Behind an answer: steering input is read first, and the reply is handled when there is none. */
    method Proceed(reply: Reply) returns (done: bool)
      requires Valid() && calls > 0 && outside.outcome(calls - 1) == Answer(reply) && messages == handed[calls - 1]
      modifies this`messages, this`session, this`toolCallsUsed, this`recentToolCalls, this`finalContent
      ensures Valid() && Continues(outside, calls, handed[calls - 1], messages, old(recentToolCalls), done)
    {
      var steered := AbsorbSteeringMessages(outside.steering(calls));
      if steered {
        return false;
      }
      done := HandleLLMResponse(reply);
    }

    /** A whole run: whatever the outside answers, every list handed to a provider is ready. */
    method Run() returns (ok: bool)
      requires Valid() && iteration == 0 && handed == []
      modifies this
      ensures Valid() && AllReady(handed)
      ensures |handed| <= 3 * maxIterations && iteration <= maxIterations
    {
      var done := false;
      ok := true;
      while iteration < maxIterations && !done
        invariant Valid() && iteration <= maxIterations && |handed| <= 3 * iteration
        decreases maxIterations - iteration
      {
        done, ok := Iterate();
      }
    }
  }

  /** The user messages that steering input becomes. */
  function Steered(inbox: seq<string>): seq<Message> {
    if inbox == [] then []
    else
      var content := TrimSpace(inbox[|inbox| - 1]);
      Steered(inbox[..|inbox| - 1]) + if content == "" then [] else [Message(User, content, [], "")]
  }

  lemma {:induction false} ReadyGrowsSteered(s: seq<Message>, inbox: seq<string>)
    requires Ready(s)
    ensures Ready(s + Steered(inbox))
  {
    if inbox == [] {
      assert s + Steered(inbox) == s;
    } else {
      var init, content := inbox[..|inbox| - 1], TrimSpace(inbox[|inbox| - 1]);
      ReadyGrowsSteered(s, init);
      if content != "" {
        var user := Message(User, content, [], "");
        ReadyGrowsPlain(s + Steered(init), user);
        assert s + Steered(inbox) == s + Steered(init) + [user];
      } else {
        assert Steered(inbox) == Steered(init);
      }
    }
  }

  method SteeringMessages(inbox: seq<string>) returns (added: seq<Message>)
    ensures added == Steered(inbox)
  {
    added := [];
    for i := 0 to |inbox|
      invariant added == Steered(inbox[..i])
    {
      var content := TrimSpace(inbox[i]);
      assert inbox[..i + 1][..i] == inbox[..i];
      if content != "" {
        added := added + [Message(User, content, [], "")];
      }
    }
    assert inbox[..|inbox|] == inbox;
  }

  /** The assistant message, then one result for each call. */
  method TurnMessages(reply: Reply, texts: seq<string>) returns (added: seq<Message>)
    requires |texts| == |reply.calls|
    ensures added == Turn(reply, texts)
  {
    added := [Message(Assistant, reply.content, reply.calls, "")];
    for i := 0 to |reply.calls|
      invariant added == Turn(reply, texts)[..i + 1]
    {
      added := added + [Message(Tool, texts[i], [], reply.calls[i].id)];
    }
  }

  /** A run from any session: every list handed to a provider is ready. */
  method RunLLMIteration(builder: Builder, outside: Outside, maxIterations: nat, maxToolCallsPerRun: int,
                         session: seq<Message>, currentMessage: string)
      returns (ok: bool, ghost handed: seq<seq<Message>>)
    ensures AllReady(handed) && |handed| <= 3 * maxIterations
  {
    var messages := BuildMessagesForSession(builder, session, currentMessage);
    var runner := new LlmIterationRunner(builder, outside, maxIterations, maxToolCallsPerRun, session, messages);
    ok := runner.Run();
    handed := runner.handed;
  }
}
