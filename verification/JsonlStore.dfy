/**
 The append-only history store of one session (pkg/memory/jsonl.go): a data file of JSON lines, a
 metadata file with a logical skip offset, and operations that write the two files in a fixed order
 with a crash possible between any two writes.
 */
module JsonlStore {
  import opened Text
  import opened Transcript

  /** A line either decodes to a message or is skipped on reading. */
  datatype Line = Good(msg: Message) | Corrupt

  /** What follows the last newline of the data file. */
  datatype Tail = Ended | Unterminated(line: Line)

  datatype Meta = Meta(summary: string, skip: nat, count: int)

  /** The two files; a missing data file is an empty one, a missing metadata file is Meta("", 0, 0). */
  datatype Disk = Disk(lines: seq<Line>, tail: Tail, meta: Meta)

  const EMPTY := Disk([], Ended, Meta("", 0, 0))

  /** The lines a scanner sees, with an unterminated last one. */
  function Scanned(lines: seq<Line>, tail: Tail): seq<Line> {
    if tail.Ended? then lines else lines + [tail.line]
  }

  function Messages(lines: seq<Line>): seq<Message> {
    if lines == [] then []
    else Messages(lines[..|lines| - 1]) + if lines[|lines| - 1].Good? then [lines[|lines| - 1].msg] else []
  }

  function Beyond(lines: seq<Line>, skip: nat): seq<Line> {
    if skip <= |lines| then lines[skip..] else []
  }

  function Live(d: Disk): seq<Line> { Beyond(Scanned(d.lines, d.tail), d.meta.skip) }

  /** What GetHistory returns. */
  function History(d: Disk): seq<Message> { Messages(Live(d)) }

  // ------------------------------------------------------------------ operations as writes

  datatype Op =
    | Add(msg: Message)
    | SetSummary(summary: string)
    | Truncate(keepLast: int)
    | SetHistory(history: seq<Message>)
    | Compact

  /** A line written behind an unterminated one becomes part of it, and neither decodes. */
  function AppendLine(lines: seq<Line>, tail: Tail, line: Line): seq<Line> {
    lines + [if tail.Ended? then line else Corrupt]
  }

  function SkipAfterTruncate(skip: nat, count: nat, keepLast: int): nat {
    if keepLast <= 0 then count else if keepLast < count - skip then count - keepLast else skip
  }

  function Encode(history: seq<Message>): seq<Line> {
    seq(|history|, i requires 0 <= i < |history| => Good(history[i]))
  }

  /** The disk after each file write of the operation, in order. */
  function Writes(op: Op, d: Disk): seq<Disk> {
    match op
    case Add(msg) =>
      var appended := d.(lines := AppendLine(d.lines, d.tail, Good(msg)), tail := Ended);
      [appended, appended.(meta := d.meta.(count := d.meta.count + 1))]
    case SetSummary(summary) => [d.(meta := d.meta.(summary := summary))]
    case Truncate(keepLast) =>
      var count := |Scanned(d.lines, d.tail)|;
      [d.(meta := d.meta.(count := count, skip := SkipAfterTruncate(d.meta.skip, count, keepLast)))]
    case SetHistory(history) => Rewrites(d, history)
    case Compact => if d.meta.skip == 0 then [] else Rewrites(d, History(d))
  }

  /** Metadata first, then the data file. */
  function Rewrites(d: Disk, history: seq<Message>): seq<Disk> {
    var meta := d.meta.(skip := 0, count := |history|);
    [d.(meta := meta), Disk(Encode(history), Ended, meta)]
  }

  /** The disk when a crash comes after n writes; a larger n is a completed operation. */
  function After(op: Op, d: Disk, n: nat): Disk {
    var writes := Writes(op, d);
    if n == 0 || writes == [] then d else if n < |writes| then writes[n - 1] else writes[|writes| - 1]
  }

  predicate Completed(op: Op, d: Disk, n: nat) { |Writes(op, d)| <= n }

  predicate Valid(d: Disk) { d.meta.skip <= |Scanned(d.lines, d.tail)| }

  predicate AllGood(lines: seq<Line>) { forall line :: line in lines ==> line.Good? }

  predicate AllCorrupt(lines: seq<Line>) { forall line :: line in lines ==> line.Corrupt? }

  predicate Clean(d: Disk) { d.tail.Ended? && AllGood(d.lines) }

  /** The list operation that an operation of the store stands for. */
  function Meaning(op: Op, h: seq<Message>): seq<Message> {
    match op
    case Add(msg) => h + [msg]
    case SetSummary(_) => h
    case Truncate(keepLast) => if keepLast <= 0 then [] else if keepLast < |h| then h[|h| - keepLast..] else h
    case SetHistory(history) => history
    case Compact => h
  }

  ghost predicate IsSuffix(a: seq<Message>, b: seq<Message>) { |a| <= |b| && a == b[|b| - |a|..] }

  // ------------------------------------------------------------------ one operation

  lemma {:induction false} MessagesConcat(a: seq<Line>, b: seq<Line>)
    ensures Messages(a + b) == Messages(a) + Messages(b)
  {
    if b == [] {
      assert a + b == a;
    } else {
      MessagesConcat(a, b[..|b| - 1]);
      assert (a + b)[..|a + b| - 1] == a + b[..|b| - 1];
    }
  }

  lemma {:induction false} BeyondSnoc(lines: seq<Line>, skip: nat, line: Line)
    ensures Messages(Beyond(lines + [line], skip)) ==
            Messages(Beyond(lines, skip)) + if skip <= |lines| && line.Good? then [line.msg] else []
  {
    if skip <= |lines| {
      var kept := lines[skip..];
      assert (lines + [line])[skip..] == kept + [line];
      assert (kept + [line])[..|kept|] == kept;
    } else {
      assert Beyond(lines + [line], skip) == [];
    }
  }

  lemma {:induction false} MessagesEncode(h: seq<Message>)
    ensures Messages(Encode(h)) == h
  {
    if h != [] {
      MessagesEncode(h[..|h| - 1]);
      assert Encode(h)[..|h| - 1] == Encode(h[..|h| - 1]);
    }
  }

  lemma {:induction false} MessagesOfGood(lines: seq<Line>)
    ensures |Messages(lines)| <= |lines|
    ensures |Messages(lines)| == |lines| <==> AllGood(lines)
    ensures |Messages(lines)| == 0 <==> AllCorrupt(lines)
  {
    if lines != [] {
      var init, last := lines[..|lines| - 1], lines[|lines| - 1];
      MessagesOfGood(init);
      assert lines == init + [last];
      assert last in lines;
    }
  }

  /** Dropping lines from the front drops messages from the front. */
  lemma {:induction false} MessagesSuffix(lines: seq<Line>, k: nat)
    requires k <= |lines|
    ensures IsSuffix(Messages(lines[k..]), Messages(lines))
    ensures |Messages(lines)| == |Messages(lines[..k])| + |Messages(lines[k..])|
  {
    assert lines == lines[..k] + lines[k..];
    MessagesConcat(lines[..k], lines[k..]);
  }

  /** The skip offset stays within the data file at every crash point. */
  lemma {:induction false} AfterValid(op: Op, d: Disk, n: nat)
    requires Valid(d)
    ensures Valid(After(op, d, n))
  {
  }

  lemma {:induction false} AfterClean(op: Op, d: Disk, n: nat)
    requires Clean(d)
    ensures Clean(After(op, d, n))
  {
  }

  /** An append is added to the history exactly when the data file ends in a newline. */
  lemma {:induction false} AddAppendsIff(d: Disk, msg: Message, n: nat)
    requires Valid(d) && Completed(Add(msg), d, n)
    ensures History(After(Add(msg), d, n)) == History(d) + [msg] <==> d.tail.Ended?
  {
    var d' := After(Add(msg), d, n);
    if d.tail.Ended? {
      assert Live(d') == Live(d) + [Good(msg)];
      MessagesConcat(Live(d), [Good(msg)]);
      assert Messages([Good(msg)]) == [msg] by {
        assert [Good(msg)][..0] == [];
      }
    } else {
      assert |Live(d')| == |Live(d)|;
      MergedTail(d, msg);
    }
  }

  /** Behind an unterminated line the new message is lost, and that line with it. */
  lemma {:induction false} MergedTail(d: Disk, msg: Message)
    requires Valid(d) && d.tail.Unterminated?
    ensures |History(After(Add(msg), d, 2))| <= |History(d)|
  {
    var d' := After(Add(msg), d, 2);
    var k := d.meta.skip;
    if k <= |d.lines| {
      assert Live(d') == d.lines[k..] + [Corrupt];
      assert Live(d) == d.lines[k..] + [d.tail.line];
      assert (d.lines[k..] + [Corrupt])[..|d.lines| - k] == d.lines[k..];
      assert (d.lines[k..] + [d.tail.line])[..|d.lines| - k] == d.lines[k..];
    } else {
      assert Live(d') == [];
    }
  }

  /** A crash in the middle of an append leaves part of the line; the next acknowledged message is lost. */
  lemma {:induction false} TornAppendLosesNext(d: Disk, part: Line, msg: Message)
    requires Valid(d) && d.tail.Ended?
    ensures var torn := d.(tail := Unterminated(part));
            Valid(torn) && History(After(Add(msg), torn, 2)) != History(torn) + [msg]
  {
    AddAppendsIff(d.(tail := Unterminated(part)), msg, 2);
  }

  lemma {:induction false} RewriteCompletes(d: Disk, history: seq<Message>)
    ensures History(Rewrites(d, history)[1]) == history
  {
    MessagesEncode(history);
    assert Encode(history)[0..] == Encode(history);
  }

  /** Between the two writes all lines are live again, so the old history is a suffix. */
  lemma {:induction false} RewriteCrash(d: Disk, history: seq<Message>)
    requires Valid(d)
    ensures IsSuffix(History(d), History(Rewrites(d, history)[0]))
  {
    var all := Scanned(d.lines, d.tail);
    MessagesSuffix(all, d.meta.skip);
    assert all[0..] == all;
  }

  lemma {:induction false} CompactKeeps(d: Disk, n: nat)
    requires Completed(Compact, d, n)
    ensures History(After(Compact, d, n)) == History(d)
  {
    RewriteCompletes(d, History(d));
  }

  lemma {:induction false} SetHistorySets(d: Disk, history: seq<Message>, n: nat)
    requires Completed(SetHistory(history), d, n)
    ensures History(After(SetHistory(history), d, n)) == history
  {
    RewriteCompletes(d, history);
  }

  /** The messages of the last lines are the last messages exactly in these two cases. */
  lemma {:induction false} LastLinesIff(live: seq<Line>, k: nat)
    requires k <= |live|
    ensures var h := Messages(live);
            var keepLast := |live| - k;
            Messages(live[k..]) == (if keepLast < |h| then h[|h| - keepLast..] else h) <==>
              AllGood(live[k..]) || AllCorrupt(live[..k])
  {
    MessagesSuffix(live, k);
    MessagesOfGood(live[..k]);
    MessagesOfGood(live[k..]);
  }

  /** The last lines of those behind the skip offset. */
  function LastLines(live: seq<Line>, keepLast: int): seq<Line> {
    if keepLast <= 0 then [] else if keepLast < |live| then live[|live| - keepLast..] else live
  }

  lemma {:induction false} SkipToLast(all: seq<Line>, skip: nat, keepLast: int)
    requires skip <= |all|
    ensures var skip' := SkipAfterTruncate(skip, |all|, keepLast);
            skip' <= |all| && all[skip'..] == LastLines(all[skip..], keepLast)
  {
  }

  lemma {:induction false} LastMessagesIff(live: seq<Line>, keepLast: int)
    ensures Messages(LastLines(live, keepLast)) == Meaning(Truncate(keepLast), Messages(live)) <==>
              || keepLast <= 0 || |live| <= keepLast
              || AllGood(live[|live| - keepLast..]) || AllCorrupt(live[..|live| - keepLast])
  {
    MessagesOfGood(live);
    if 0 < keepLast < |live| {
      LastLinesIff(live, |live| - keepLast);
    }
  }

  /**
   Truncation keeps exactly the last messages when no line that it keeps is corrupt, or every
   line that it drops is; otherwise corrupt lines use up places.
   */
  lemma {:induction false} TruncateKeepsLastIff(d: Disk, keepLast: int, n: nat)
    requires Valid(d) && Completed(Truncate(keepLast), d, n)
    ensures var live := Live(d);
            History(After(Truncate(keepLast), d, n)) == Meaning(Truncate(keepLast), History(d)) <==>
              || keepLast <= 0 || |live| <= keepLast
              || AllGood(live[|live| - keepLast..]) || AllCorrupt(live[..|live| - keepLast])
  {
    SkipToLast(Scanned(d.lines, d.tail), d.meta.skip, keepLast);
    LastMessagesIff(Live(d), keepLast);
    assert Live(After(Truncate(keepLast), d, n)) == LastLines(Live(d), keepLast);
  }

  lemma {:induction false} CleanTruncates(d: Disk, keepLast: int, n: nat)
    requires Valid(d) && Clean(d) && Completed(Truncate(keepLast), d, n)
    ensures History(After(Truncate(keepLast), d, n)) == Meaning(Truncate(keepLast), History(d))
  {
    TruncateKeepsLastIff(d, keepLast, n);
  }

  /** A completed operation is the list operation, on a data file without corrupt lines. */
  lemma {:induction false} CompletedRefines(op: Op, d: Disk, n: nat)
    requires Valid(d) && Clean(d) && Completed(op, d, n)
    ensures History(After(op, d, n)) == Meaning(op, History(d))
  {
    match op
    case Add(msg) => AddAppendsIff(d, msg, n);
    case SetSummary(_) =>
    case Truncate(keepLast) => CleanTruncates(d, keepLast, n);
    case SetHistory(history) => SetHistorySets(d, history, n);
    case Compact => CompactKeeps(d, n);
  }

  lemma {:induction false} SuffixRefl(h: seq<Message>)
    ensures IsSuffix(h, h)
  {
    assert h[0..] == h;
  }

  /** An operation of at most two writes is complete after two of them, or stopped before or between. */
  lemma {:induction false} CrashPoints(op: Op, d: Disk, n: nat)
    ensures var w := Writes(op, d);
            || After(op, d, n) == After(op, d, 2)
            || (n == 0 && After(op, d, n) == d)
            || (n == 1 && |w| == 2 && After(op, d, n) == w[0])
  {
    assert |Writes(op, d)| <= 2;
  }

  lemma {:induction false} FirstWrite(op: Op, d: Disk)
    requires Valid(d) && d.tail.Ended? && |Writes(op, d)| == 2
    ensures History(Writes(op, d)[0]) == History(After(op, d, 2)) || IsSuffix(History(d), History(Writes(op, d)[0]))
  {
    if op.SetHistory? {
      RewriteCrash(d, op.history);
    } else if op.Compact? {
      RewriteCrash(d, History(d));
    } else {
      assert Live(Writes(op, d)[0]) == Live(After(op, d, 2));
    }
  }

  /** After a crash the history is the new one, or still ends in the old one. */
  lemma {:induction false} CrashLosesNothing(op: Op, d: Disk, n: nat)
    requires Valid(d) && d.tail.Ended?
    ensures History(After(op, d, n)) == History(After(op, d, 2)) || IsSuffix(History(d), History(After(op, d, n)))
  {
    CrashPoints(op, d, n);
    SuffixRefl(History(d));
    if |Writes(op, d)| == 2 {
      FirstWrite(op, d);
    }
  }

  // ------------------------------------------------------------------ every run

  /** An operation and the number of writes it got to make. */
  datatype Event = Event(op: Op, writes: nat)

  function Replay(d: Disk, events: seq<Event>): Disk {
    if events == [] then d
    else
      var last := events[|events| - 1];
      After(last.op, Replay(d, events[..|events| - 1]), last.writes)
  }

  lemma {:induction false} ReplaySound(events: seq<Event>)
    ensures Valid(Replay(EMPTY, events)) && Clean(Replay(EMPTY, events))
  {
    if events != [] {
      var init, last := events[..|events| - 1], events[|events| - 1];
      ReplaySound(init);
      AfterValid(last.op, Replay(EMPTY, init), last.writes);
      AfterClean(last.op, Replay(EMPTY, init), last.writes);
    }
  }

  /** What the list sees of an operation that made n writes. */
  ghost predicate Refines(op: Op, completed: bool, h: seq<Message>, h': seq<Message>) {
    h' == Meaning(op, h) || (!completed && IsSuffix(h, h'))
  }

  lemma {:induction false} StepRefines(op: Op, d: Disk, n: nat)
    requires Valid(d) && Clean(d)
    ensures Refines(op, Completed(op, d, n), History(d), History(After(op, d, n)))
  {
    CompletedRefines(op, d, 2);
    if Completed(op, d, n) {
      CompletedRefines(op, d, n);
    } else {
      CrashLosesNothing(op, d, n);
    }
  }

  /**
   Every run refines a list: an operation that completes acts on the list as it should, and one
   that crashes has either acted or left the list as the end of what is read back.
   */
  lemma {:induction false} EveryRunRefines(events: seq<Event>, last: Event)
    ensures var d := Replay(EMPTY, events);
            var d' := Replay(EMPTY, events + [last]);
            && Valid(d')
            && Refines(last.op, Completed(last.op, d, last.writes), History(d), History(d'))
  {
    assert (events + [last])[..|events|] == events;
    ReplaySound(events);
    ReplaySound(events + [last]);
    StepRefines(last.op, Replay(EMPTY, events), last.writes);
  }

  /** The messages whose append was acknowledged. */
  function Acknowledged(events: seq<Event>): seq<Message> {
    if events == [] then []
    else
      var last := events[|events| - 1];
      Acknowledged(events[..|events| - 1]) + if last.op.Add? && last.writes >= 2 then [last.op.msg] else []
  }

  lemma {:induction false} AcknowledgedStep(
      acked: seq<Message>, event: Event, completed: bool, h: seq<Message>, h': seq<Message>)
    requires !event.op.Truncate? && !event.op.SetHistory?
    requires event.op.Add? ==> completed == (event.writes >= 2)
    requires Subseq(acked, h) && Refines(event.op, completed, h, h')
    ensures Subseq(acked + if event.op.Add? && event.writes >= 2 then [event.op.msg] else [], h')
  {
    if event.op.Add? && h' == h + [event.op.msg] {
      var msg := [event.op.msg];
      SubseqRefl(msg);
      SubseqConcat(acked, h, msg, msg);
      SubseqPad(acked, [], h, msg);
      assert [] + h + msg == h';
    } else if h' != h {
      assert h' == h'[..|h'| - |h|] + h + [];
      SubseqPad(acked, h'[..|h'| - |h|], h, []);
    }
    assert acked + [] == acked;
  }

  /** In a run that never truncates or replaces, every acknowledged message can be read back, in order. */
  lemma {:induction false} AcknowledgedSurvive(events: seq<Event>)
    requires forall e :: e in events ==> !e.op.Truncate? && !e.op.SetHistory?
    ensures Subseq(Acknowledged(events), History(Replay(EMPTY, events)))
  {
    if events != [] {
      var init, last := events[..|events| - 1], events[|events| - 1];
      assert init + [last] == events;
      AcknowledgedSurvive(init);
      EveryRunRefines(init, last);
      var d := Replay(EMPTY, init);
      var completed := Completed(last.op, d, last.writes);
      AcknowledgedStep(Acknowledged(init), last, completed, History(d), History(Replay(EMPTY, events)));
    }
  }

  // ------------------------------------------------------------------ runs with torn appends

  /** An operation with its writes, or an append of which a crash left only a part without a newline. */
  datatype Happening = Did(event: Event) | Torn(part: Line)

  /** A part written behind an unterminated line does not decode with it. */
  function Tear(d: Disk, part: Line): Disk { d.(tail := Unterminated(if d.tail.Ended? then part else Corrupt)) }

  function ReplayTorn(happenings: seq<Happening>): Disk {
    if happenings == [] then EMPTY
    else
      var d, last := ReplayTorn(happenings[..|happenings| - 1]), happenings[|happenings| - 1];
      match last
      case Did(event) => After(event.op, d, event.writes)
      case Torn(part) => Tear(d, part)
  }

  predicate Appends(happening: Happening) { happening.Did? && happening.event.op.Add? && happening.event.writes >= 1 }

  predicate NeverCuts(happenings: seq<Happening>) {
    forall h :: h in happenings && h.Did? ==> !h.event.op.Truncate? && !h.event.op.SetHistory?
  }

  /** What one happening leaves behind the last newline. */
  function TailAfter(tail: Tail, h: Happening): Tail {
    if h.Torn? then Unterminated(if tail.Ended? then h.part else Corrupt) else if Appends(h) then Ended else tail
  }

  /** The part left open: that of the last torn append, as long as no other append came behind it. */
  function OpenPart(happenings: seq<Happening>): Tail {
    if happenings == [] then Ended
    else TailAfter(OpenPart(happenings[..|happenings| - 1]), happenings[|happenings| - 1])
  }

  /** The messages of all appends except those that came first behind a torn one. */
  function WholeAppends(happenings: seq<Happening>): seq<Message> {
    if happenings == [] then []
    else
      var init, last := happenings[..|happenings| - 1], happenings[|happenings| - 1];
      WholeAppends(init) + if Appends(last) && OpenPart(init).Ended? then [last.event.op.msg] else []
  }

  lemma {:induction false} MessagesSnoc(lines: seq<Line>, line: Line)
    ensures Messages(lines + [line]) == Messages(lines) + if line.Good? then [line.msg] else []
  {
    assert (lines + [line])[..|lines|] == lines;
  }

  lemma {:induction false} DidStep(d: Disk, op: Op, n: nat)
    requires d.meta.skip == 0 && !op.Truncate? && !op.SetHistory?
    ensures var d' := After(op, d, n);
            && d'.meta.skip == 0
            && if op.Add? && n >= 1 then d'.tail == Ended && d'.lines == AppendLine(d.lines, d.tail, Good(op.msg))
               else d'.tail == d.tail && d'.lines == d.lines
  {
  }

  lemma {:induction false} TornStep(d: Disk, h: Happening, d': Disk)
    requires d.meta.skip == 0 && (h.Did? ==> !h.event.op.Truncate? && !h.event.op.SetHistory?)
    requires d' == match h case Did(event) => After(event.op, d, event.writes) case Torn(part) => Tear(d, part)
    ensures d'.meta.skip == 0 && d'.tail == TailAfter(d.tail, h)
    ensures Messages(d'.lines) == Messages(d.lines) + if Appends(h) && d.tail.Ended? then [h.event.op.msg] else []
  {
    if h.Did? {
      DidStep(d, h.event.op, h.event.writes);
    }
    if Appends(h) {
      MessagesSnoc(d.lines, if d.tail.Ended? then Good(h.event.op.msg) else Corrupt);
    }
  }

  lemma {:induction false} TornReplay(happenings: seq<Happening>)
    requires NeverCuts(happenings)
    ensures var d := ReplayTorn(happenings);
            d.meta.skip == 0 && d.tail == OpenPart(happenings) && Messages(d.lines) == WholeAppends(happenings)
  {
    if happenings != [] {
      var init, last := happenings[..|happenings| - 1], happenings[|happenings| - 1];
      assert last in happenings && forall h :: h in init ==> h in happenings;
      TornReplay(init);
      TornStep(ReplayTorn(init), last, ReplayTorn(happenings));
    }
  }

  /**
   In any run of appends, torn appends, summaries and compactions exactly the first append behind a
   torn one is lost: all others are read back in order, then the part still open when it decodes.
   */
  lemma {:induction false} TornRunsExact(happenings: seq<Happening>)
    requires NeverCuts(happenings)
    ensures var part := OpenPart(happenings);
            History(ReplayTorn(happenings)) ==
              WholeAppends(happenings) + if part.Unterminated? && part.line.Good? then [part.line.msg] else []
  {
    var d := ReplayTorn(happenings);
    TornReplay(happenings);
    assert Live(d) == Scanned(d.lines, d.tail);
    if d.tail.Unterminated? {
      MessagesSnoc(d.lines, d.tail.line);
    }
  }

  // ------------------------------------------------------------------ all operations and torn appends

  lemma {:induction false} TornReplayValid(happenings: seq<Happening>)
    ensures Valid(ReplayTorn(happenings))
  {
    if happenings != [] {
      var init, last := happenings[..|happenings| - 1], happenings[|happenings| - 1];
      TornReplayValid(init);
      if last.Did? {
        AfterValid(last.event.op, ReplayTorn(init), last.event.writes);
      }
    }
  }

  function Decoded(line: Line): seq<Message> { if line.Good? then [line.msg] else [] }

  /** The history without the part still open. */
  function Whole(d: Disk): seq<Message> { Messages(Beyond(d.lines, d.meta.skip)) }

  /** All messages of the data file, those before the skip offset too. */
  function Unskipped(d: Disk): seq<Message> { Messages(Scanned(d.lines, d.tail)) }

  /** The history that an operation leaves when it stops after n > 0 writes. */
  function Outcome(op: Op, d: Disk, n: nat): seq<Message>
    requires n > 0
  {
    match op
    case Add(msg) => if d.tail.Ended? then History(d) + [msg] else Whole(d)
    case SetSummary(_) => History(d)
    case Truncate(keepLast) => Messages(LastLines(Live(d), keepLast))
    case SetHistory(history) => if n == 1 then Unskipped(d) else history
    case Compact => if d.meta.skip > 0 && n == 1 then Unskipped(d) else History(d)
  }

  lemma {:induction false} LineAdded(d: Disk, line: Line, d': Disk)
    requires Valid(d) && d'.meta.skip == d.meta.skip
    requires Scanned(d'.lines, d'.tail) == d.lines + [line]
    ensures History(d') == if d.tail.Ended? then History(d) + Decoded(line) else
                             Whole(d) + if d.meta.skip <= |d.lines| then Decoded(line) else []
  {
    BeyondSnoc(d.lines, d.meta.skip, line);
  }

  lemma {:induction false} OutcomeExact(op: Op, d: Disk, n: nat)
    requires Valid(d) && n > 0
    ensures History(After(op, d, n)) == Outcome(op, d, n)
  {
    var d' := After(op, d, n);
    match op
    case Add(msg) =>
      var line := if d.tail.Ended? then Good(msg) else Corrupt;
      assert Scanned(d'.lines, d'.tail) == d.lines + [line];
      LineAdded(d, line, d');
    case SetSummary(_) =>
    case Truncate(keepLast) => SkipToLast(Scanned(d.lines, d.tail), d.meta.skip, keepLast);
    case SetHistory(history) => RewriteExact(d, history, n);
    case Compact =>
      if d.meta.skip > 0 {
        RewriteExact(d, History(d), n);
      }
  }

  lemma {:induction false} RewriteExact(d: Disk, history: seq<Message>, n: nat)
    requires n > 0
    ensures History(Rewrites(d, history)[if n == 1 then 0 else 1]) == if n == 1 then Unskipped(d) else history
  {
    RewriteCompletes(d, history);
    var all := Scanned(d.lines, d.tail);
    assert all[0..] == all;
  }

  lemma {:induction false} TearExact(d: Disk, part: Line)
    requires Valid(d)
    ensures History(Tear(d, part)) == if d.tail.Ended? then History(d) + Decoded(part) else Whole(d)
  {
    LineAdded(d, if d.tail.Ended? then part else Corrupt, Tear(d, part));
  }

  /**
   In every run of all operations, cut short anywhere, and torn appends, the skip offset stays within
   the data file and each happening has exactly this effect on the history.
   */
  lemma {:induction false} EveryHappeningExact(happenings: seq<Happening>, last: Happening)
    ensures var d, d' := ReplayTorn(happenings), ReplayTorn(happenings + [last]);
            && Valid(d) && Valid(d')
            && History(d') ==
                 match last
                 case Torn(part) => (if d.tail.Ended? then History(d) + Decoded(part) else Whole(d))
                 case Did(event) => if event.writes == 0 then History(d) else Outcome(event.op, d, event.writes)
  {
    assert (happenings + [last])[..|happenings|] == happenings;
    TornReplayValid(happenings);
    TornReplayValid(happenings + [last]);
    var d := ReplayTorn(happenings);
    match last
    case Torn(part) => TearExact(d, part);
    case Did(event) =>
      if event.writes > 0 {
        OutcomeExact(event.op, d, event.writes);
      }
  }

  /** What keeps a completed operation from being the list operation. */
  predicate Spoils(op: Op, d: Disk) {
    match op
    case Add(_) => d.tail.Unterminated?
    case Truncate(keepLast) =>
      var live := Live(d);
      0 < keepLast < |live| && !AllGood(live[|live| - keepLast..]) && !AllCorrupt(live[..|live| - keepLast])
    case _ => false
  }

  /**
   In every such run a completed operation acts on the history as on a list exactly when it is not an
   append behind a torn one, nor a truncation that keeps a corrupt line and drops a message.
   */
  lemma {:induction false} CompletedRefinesIff(happenings: seq<Happening>, op: Op, n: nat)
    requires Completed(op, ReplayTorn(happenings), n)
    ensures var d := ReplayTorn(happenings);
            History(After(op, d, n)) == Meaning(op, History(d)) <==> !Spoils(op, d)
  {
    var d := ReplayTorn(happenings);
    TornReplayValid(happenings);
    match op
    case Add(msg) => AddAppendsIff(d, msg, n);
    case SetSummary(_) =>
    case Truncate(keepLast) => TruncateKeepsLastIff(d, keepLast, n);
    case SetHistory(history) => SetHistorySets(d, history, n);
    case Compact => CompactKeeps(d, n);
  }

  lemma {:induction false} ReplaySnoc(happenings: seq<Happening>, event: Event)
    ensures ReplayTorn(happenings + [Did(event)]) == After(event.op, ReplayTorn(happenings), event.writes)
  {
    assert (happenings + [Did(event)])[..|happenings|] == happenings;
  }

  /** An append, a torn one, and two more. */
  function TornRun(first: Message, lost: Message, second: Message): seq<Happening> {
    [Did(Event(Add(first), 2))] + [Torn(Corrupt)] + [Did(Event(Add(lost), 2))] + [Did(Event(Add(second), 2))]
  }

  lemma {:induction false} TornRunLines(first: Message, lost: Message, second: Message)
    ensures var d := ReplayTorn(TornRun(first, lost, second));
            d.lines == [Good(first), Corrupt, Good(second)] && d.tail.Ended? && d.meta.skip == 0
  {
    var one := [Did(Event(Add(first), 2))];
    var two := one + [Torn(Corrupt)];
    ReplaySnoc([], Event(Add(first), 2));
    assert [] + one == one && two[..1] == one;
    assert ReplayTorn(two).lines == [Good(first)] && ReplayTorn(two).tail.Unterminated?;
    ReplaySnoc(two, Event(Add(lost), 2));
    ReplaySnoc(two + [Did(Event(Add(lost), 2))], Event(Add(second), 2));
  }

  lemma {:induction false} MessagesOfThree(first: Message, second: Message)
    ensures Messages([Good(first), Corrupt, Good(second)]) == [first, second]
    ensures Messages([Corrupt, Good(second)]) == [second]
  {
    MessagesSnoc([], Good(first));
    MessagesSnoc([Good(first)], Corrupt);
    MessagesSnoc([Good(first), Corrupt], Good(second));
    MessagesSnoc([], Corrupt);
    MessagesSnoc([Corrupt], Good(second));
    assert [] + [Good(first)] == [Good(first)] && [] + [Corrupt] == [Corrupt];
    assert [Good(first)] + [Corrupt] == [Good(first), Corrupt];
    assert [Good(first), Corrupt] + [Good(second)] == [Good(first), Corrupt, Good(second)];
    assert [Corrupt] + [Good(second)] == [Corrupt, Good(second)];
  }

  /** A torn append leaves a corrupt line, and a later truncation to two messages keeps one. */
  lemma {:induction false} TruncateKeepsTooFew(first: Message, lost: Message, second: Message)
    ensures var d := ReplayTorn(TornRun(first, lost, second));
            History(d) == [first, second] && History(After(Truncate(2), d, 1)) == [second]
  {
    var d := ReplayTorn(TornRun(first, lost, second));
    var lines := [Good(first), Corrupt, Good(second)];
    TornRunLines(first, lost, second);
    MessagesOfThree(first, second);
    assert lines[0..] == lines && lines[1..] == [Corrupt, Good(second)];
  }

  // ------------------------------------------------------------------ the store

  lemma {:induction false} NextLine(all: seq<Line>, i: nat, skip: nat)
    requires i < |all|
    ensures Messages(Beyond(all[..i + 1], skip)) ==
            Messages(Beyond(all[..i], skip)) + if i + 1 > skip && all[i].Good? then [all[i].msg] else []
  {
    BeyondSnoc(all[..i], skip, all[i]);
    assert all[..i + 1] == all[..i] + [all[i]];
  }

  /** The store of one session; a crash after writes file writes ends an operation early. */
  class JSONLStore {
    var lines: seq<Line>
    var tail: Tail
    var meta: Meta

    ghost function State(): Disk
      reads this
    {
      Disk(lines, tail, meta)
    }

    constructor ()
      ensures State() == EMPTY
    {
      lines, tail, meta := [], Ended, Meta("", 0, 0);
    }

    method ReadMessages(skip: nat) returns (msgs: seq<Message>)
      ensures msgs == Messages(Beyond(Scanned(lines, tail), skip))
    {
      var all := Scanned(lines, tail);
      msgs := [];
      var lineNum := 0;
      while lineNum < |all|
        invariant 0 <= lineNum <= |all|
        invariant msgs == Messages(Beyond(all[..lineNum], skip))
      {
        NextLine(all, lineNum, skip);
        var line := all[lineNum];
        lineNum := lineNum + 1;
        if lineNum > skip && line.Good? {
          msgs := msgs + [line.msg];
        }
      }
      assert all[..|all|] == all;
    }

    method GetHistory() returns (msgs: seq<Message>)
      ensures msgs == History(State())
    {
      msgs := ReadMessages(meta.skip);
    }

    method CountLines() returns (n: nat)
      ensures n == |Scanned(lines, tail)|
    {
      n := |lines|;
      if tail.Unterminated? {
        n := n + 1;
      }
    }

    method AddMsg(msg: Message, writes: nat) returns (completed: bool)
      modifies this
      ensures State() == After(Add(msg), old(State()), writes)
      ensures completed == Completed(Add(msg), old(State()), writes)
    {
      if writes < 1 {
        return false;
      }
      lines, tail := AppendLine(lines, tail, Good(msg)), Ended;
      if writes < 2 {
        return false;
      }
      meta := meta.(count := meta.count + 1);
      return true;
    }

    method SaveSummary(summary: string, writes: nat) returns (completed: bool)
      modifies this
      ensures State() == After(SetSummary(summary), old(State()), writes)
      ensures completed == Completed(SetSummary(summary), old(State()), writes)
    {
      if writes < 1 {
        return false;
      }
      meta := meta.(summary := summary);
      return true;
    }

    method TruncateHistory(keepLast: int, writes: nat) returns (completed: bool)
      modifies this
      ensures State() == After(Truncate(keepLast), old(State()), writes)
      ensures completed == Completed(Truncate(keepLast), old(State()), writes)
    {
      var n := CountLines();
      if writes < 1 {
        return false;
      }
      meta := meta.(count := n);
      if keepLast <= 0 {
        meta := meta.(skip := n);
      } else {
        var effective := n - meta.skip;
        if keepLast < effective {
          meta := meta.(skip := n - keepLast);
        }
      }
      return true;
    }

    method ReplaceHistory(history: seq<Message>, writes: nat) returns (completed: bool)
      modifies this
      ensures State() == After(SetHistory(history), old(State()), writes)
      ensures completed == Completed(SetHistory(history), old(State()), writes)
    {
      completed := Rewrite(history, writes);
    }

    /** Metadata before data, so that a crash in between makes too much live rather than too little. */
    method Rewrite(history: seq<Message>, writes: nat) returns (completed: bool)
      modifies this
      ensures State() == if writes == 0 then old(State())
                         else Rewrites(old(State()), history)[if writes == 1 then 0 else 1]
      ensures completed == (writes >= 2)
    {
      if writes < 1 {
        return false;
      }
      meta := meta.(skip := 0, count := |history|);
      if writes < 2 {
        return false;
      }
      lines, tail := Encode(history), Ended;
      return true;
    }

    method CompactFile(writes: nat) returns (completed: bool)
      modifies this
      ensures State() == After(Compact, old(State()), writes)
      ensures completed == Completed(Compact, old(State()), writes)
    {
      if meta.skip == 0 {
        return true;
      }
      var active := ReadMessages(meta.skip);
      completed := Rewrite(active, writes);
    }
  }
}
