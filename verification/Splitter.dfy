/**
 The outbound splitter (pkg/channels/manager.go).  A message is cut into chunks of at most maxLen
 runes; a cut inside a code block closes the fence in the chunk and puts the fence line back in
 front of the remaining input, so the input being consumed can also grow.
 */
module Splitter {
  import opened Text

  // ------------------------------------------------------------------ range finders

  predicate IsNewline(c: char) { c == '\n' }

  predicate IsGap(c: char) { c == ' ' || c == '\t' }

  function Max(a: int, b: int): int { if a < b then b else a }

  function Min(a: int, b: int): int { if a < b then a else b }

  predicate FenceAt(s: string, i: int) {
    0 <= i && i + 2 < |s| && s[i] == '`' && s[i + 1] == '`' && s[i + 2] == '`'
  }

  /** The last index of s[lo..hi] satisfying p, or none. */
  function LastMatch(s: string, lo: int, hi: int, p: char -> bool, none: int): (r: int)
    requires 0 <= lo && hi <= |s| && none < lo
    ensures r == none || lo <= r < hi
    decreases hi - lo
  {
    if hi <= lo then none
    else if p(s[hi - 1]) then hi - 1
    else LastMatch(s, lo, hi - 1, p, none)
  }

  lemma {:induction false} LastMatchIsLast(s: string, lo: int, hi: int, p: char -> bool, none: int)
    requires 0 <= lo && hi <= |s| && none < lo
    ensures var r := LastMatch(s, lo, hi, p, none);
            (r != none ==> p(s[r])) && forall i :: lo <= i < hi && r < i ==> !p(s[i])
    decreases hi - lo
  {
    if lo < hi && !p(s[hi - 1]) {
      LastMatchIsLast(s, lo, hi - 1, p, none);
    }
  }

  function FindLast(s: string, start: nat, end: int, window: nat, p: char -> bool): (r: int)
    requires end <= |s|
    ensures r == start - 1 || Max(end - window, start) <= r < end
  {
    LastMatch(s, Max(end - window, start), end, p, start - 1)
  }

  function NewlineFrom(s: string, from: nat): (r: int)
    ensures r == -1 || (from <= r < |s| && s[r] == '\n')
    decreases |s| - from
  {
    if |s| <= from then -1
    else if s[from] == '\n' then from
    else NewlineFrom(s, from + 1)
  }

  lemma {:induction false} NewlineFromIsFirst(s: string, from: nat, nl: int)
    ensures NewlineFrom(s, from) == nl <==>
            if nl == -1 then forall i :: from <= i < |s| ==> s[i] != '\n'
            else from <= nl < |s| && s[nl] == '\n' && forall i :: from <= i < nl ==> s[i] != '\n'
    decreases |s| - from
  {
    if from < |s| && s[from] != '\n' {
      NewlineFromIsFirst(s, from + 1, nl);
    }
  }

  function NextClosing(s: string, from: nat): (r: int)
    ensures r == -1 || (from + 3 <= r <= |s| && FenceAt(s, r - 3))
    decreases |s| - from
  {
    if |s| <= from then -1
    else if FenceAt(s, from) then from + 3
    else NextClosing(s, from + 1)
  }

  /** Fences are paired left to right; the position of the one left open at end, or -1. */
  function LastUnclosed(s: string, i: nat, end: nat, inBlock: bool, open: int): (r: int)
    requires end <= |s|
    requires inBlock ==> 0 <= open < i && open + 2 < end && FenceAt(s, open)
    ensures r == -1 || (r + 2 < end && FenceAt(s, r) && (r >= i || (inBlock && r == open)))
    decreases end - i
  {
    if end <= i then (if inBlock then open else -1)
    else if i + 2 < end && FenceAt(s, i) then
      LastUnclosed(s, i + 3, end, !inBlock, if inBlock then open else i)
    else LastUnclosed(s, i + 1, end, inBlock, open)
  }

  /** With no fence left to meet, the block that is open stays open. */
  lemma {:induction false} UnclosedWithoutFence(s: string, i: nat, end: nat, inBlock: bool, open: int)
    requires end <= |s|
    requires inBlock ==> 0 <= open < i && open + 2 < end && FenceAt(s, open)
    requires forall k :: i <= k && k + 2 < end ==> !FenceAt(s, k)
    ensures LastUnclosed(s, i, end, inBlock, open) == if inBlock then open else -1
    decreases end - i
  {
    if i < end {
      UnclosedWithoutFence(s, i + 1, end, inBlock, open);
    }
  }

  method FindLastNewlineInRange(s: string, start: nat, end: int, window: nat) returns (r: int)
    requires end <= |s|
    ensures r == FindLast(s, start, end, window, IsNewline)
  {
    var searchStart := Max(end - window, start);
    var i := end - 1;
    while i >= searchStart
      invariant searchStart - 1 <= i || i == end - 1
      invariant i < end
      invariant LastMatch(s, searchStart, end, IsNewline, start - 1) ==
                LastMatch(s, searchStart, i + 1, IsNewline, start - 1)
    {
      if s[i] == '\n' {
        return i;
      }
      i := i - 1;
    }
    return start - 1;
  }

  method FindLastSpaceInRange(s: string, start: nat, end: int, window: nat) returns (r: int)
    requires end <= |s|
    ensures r == FindLast(s, start, end, window, IsGap)
  {
    var searchStart := Max(end - window, start);
    var i := end - 1;
    while i >= searchStart
      invariant searchStart - 1 <= i || i == end - 1
      invariant i < end
      invariant LastMatch(s, searchStart, end, IsGap, start - 1) == LastMatch(s, searchStart, i + 1, IsGap, start - 1)
    {
      if s[i] == ' ' || s[i] == '\t' {
        return i;
      }
      i := i - 1;
    }
    return start - 1;
  }

  method FindNewlineFrom(s: string, from: nat) returns (r: int)
    ensures r == NewlineFrom(s, from)
  {
    var i := from;
    while i < |s|
      invariant NewlineFrom(s, from) == NewlineFrom(s, i)
    {
      if s[i] == '\n' {
        return i;
      }
      i := i + 1;
    }
    return -1;
  }

  method FindNextClosingCodeBlockInRange(s: string, from: nat) returns (r: int)
    ensures r == NextClosing(s, from)
  {
    var i := from;
    while i < |s|
      invariant NextClosing(s, from) == NextClosing(s, i)
    {
      if i + 2 < |s| && s[i] == '`' && s[i + 1] == '`' && s[i + 2] == '`' {
        return i + 3;
      }
      i := i + 1;
    }
    return -1;
  }

  method FindLastUnclosedCodeBlockInRange(s: string, start: nat, end: nat) returns (r: int)
    requires end <= |s|
    ensures r == LastUnclosed(s, start, end, false, -1)
  {
    var inCodeBlock, lastOpenIdx := false, -1;
    var i := start;
    while i < end
      invariant inCodeBlock ==> 0 <= lastOpenIdx < i && lastOpenIdx + 2 < end && FenceAt(s, lastOpenIdx)
      invariant LastUnclosed(s, start, end, false, -1) == LastUnclosed(s, i, end, inCodeBlock, lastOpenIdx)
    {
      if i + 2 < end && s[i] == '`' && s[i + 1] == '`' && s[i + 2] == '`' {
        if !inCodeBlock {
          lastOpenIdx := i;
        }
        inCodeBlock := !inCodeBlock;
        i := i + 2;
      }
      i := i + 1;
    }
    return if inCodeBlock then lastOpenIdx else -1;
  }

  // ------------------------------------------------------------------ one turn of the loop

  const FENCE: string := "```"

  /** maxLen less the buffer kept for closing a code block. */
  function EffectiveLimit(maxLen: int): (r: int)
    requires 0 < maxLen
    ensures 1 <= r <= maxLen
    ensures 10 <= maxLen ==> r <= maxLen - 5
    ensures 5 <= maxLen <==> 3 <= r
  {
    var codeBlockBuffer := Max(maxLen / 10, 50);
    var capped := if codeBlockBuffer > maxLen / 2 then maxLen / 2 else codeBlockBuffer;
    Max(maxLen - capped, maxLen / 2)
  }

  /** The cut suggested by newlines and spaces alone. */
  function NaturalEnd(s: string, start: nat, maxLen: int): (r: nat)
    requires 0 < maxLen < |s| - start
    ensures start < r <= start + EffectiveLimit(maxLen)
  {
    var end := start + EffectiveLimit(maxLen);
    var newline := FindLast(s, start, end, 200, IsNewline);
    var space := FindLast(s, start, end, 100, IsGap);
    if newline > start then newline else if space > start then space else end
  }

  /** The text from an opening fence to the end of its line, or the bare fence when no newline follows. */
  function FenceLine(s: string, fence: nat): (r: string)
    requires FenceAt(s, fence)
    ensures 3 <= |r| && fence + |r| <= |s| && r == s[fence..fence + |r|]
  {
    var nl := NewlineFrom(s, fence);
    if nl == -1 then s[fence..fence + 3] else s[fence..nl]
  }

  /** The fence line that a reopened block starts with. */
  function Header(s: string, fence: nat): string
    requires FenceAt(s, fence)
  {
    TrimSpace(FenceLine(s, fence))
  }

  function HeaderEnd(s: string, fence: nat): (r: nat)
    requires FenceAt(s, fence)
    ensures fence <= r
  {
    var headerEnd := NewlineFrom(s, fence);
    if headerEnd == -1 then fence + |Header(s, fence)| else headerEnd
  }

  /** How one turn ends its chunk: plainly, or by closing a fence that the rest reopens. */
  datatype Cut = Plain(end: nat) | Reopen(end: nat, header: string)

  /** The cut stays inside the text and within maxLen of the start of the chunk. */
  predicate CutWithin(cut: Cut, start: nat, maxLen: int) {
    match cut
    case Plain(end) => start < end <= start + maxLen
    case Reopen(end, header) => 5 <= maxLen && start <= end <= start + maxLen - 5
  }

  function CutOpenBlock(s: string, start: nat, maxLen: int, msgEnd: nat, fence: nat): (cut: Cut)
    requires 0 < maxLen < |s| - start
    requires start <= fence && fence + 2 < msgEnd <= start + EffectiveLimit(maxLen) && FenceAt(s, fence)
    ensures CutWithin(cut, start, maxLen)
  {
    var closing := NextClosing(s, msgEnd);
    if closing > 0 && closing - start <= maxLen then Plain(closing)
    else if msgEnd > HeaderEnd(s, fence) + 20 then Reopen(InnerEnd(s, start, maxLen, fence), Header(s, fence))
    else CutBefore(s, start, maxLen, fence)
  }

  /** Where to close a block that already holds a reasonable amount of content. */
  function InnerEnd(s: string, start: nat, maxLen: int, fence: nat): (r: nat)
    requires 5 < maxLen < |s| - start
    requires start <= fence && FenceAt(s, fence)
    ensures start <= r <= start + maxLen - 5
  {
    var innerLimit := Min(start + maxLen - 5, |s|);
    var betterEnd := FindLast(s, start, innerLimit, 200, IsNewline);
    if betterEnd > HeaderEnd(s, fence) then betterEnd else innerLimit
  }

  /** A cut before the fence, or as a last resort inside the block. */
  function CutBefore(s: string, start: nat, maxLen: int, fence: nat): (cut: Cut)
    requires 5 <= maxLen < |s| - start
    requires start <= fence <= start + maxLen && FenceAt(s, fence)
    ensures CutWithin(cut, start, maxLen)
  {
    var newline := FindLast(s, start, fence, 200, IsNewline);
    var space := FindLast(s, start, fence, 100, IsGap);
    if newline > start then Plain(newline)
    else if space > start then Plain(space)
    else if fence - start > 20 then Plain(fence)
    else Reopen(Min(start + maxLen - 5, |s|), Header(s, fence))
  }

  function ChooseCut(s: string, start: nat, maxLen: int): (cut: Cut)
    requires 0 < maxLen < |s| - start
    ensures CutWithin(cut, start, maxLen)
  {
    var msgEnd := NaturalEnd(s, start, maxLen);
    var fence := LastUnclosed(s, start, msgEnd, false, -1);
    if fence < 0 then Plain(msgEnd) else CutOpenBlock(s, start, maxLen, msgEnd, fence)
  }

  function SkipBlank(s: string, i: nat): (r: nat)
    requires i <= |s|
    ensures i <= r <= |s|
    ensures forall k :: i <= k < r ==> IsBlank(s[k])
    ensures r < |s| ==> !IsBlank(s[r])
    decreases |s| - i
  {
    if i < |s| && IsBlank(s[i]) then SkipBlank(s, i + 1) else i
  }

  /** The loop's variables. */
  datatype State = Running(runes: string, start: nat, out: seq<string>) | Done(out: seq<string>)

  predicate Valid(st: State) { st.Running? ==> st.start <= |st.runes| }

  function Apply(st: State, cut: Cut): State
    requires st.Running? && st.start <= cut.end <= |st.runes|
  {
    match cut
    case Plain(end) => Running(st.runes, SkipBlank(st.runes, end), st.out + [st.runes[st.start..end]])
    case Reopen(end, header) =>
      Running(TrimSpace(header + "\n" + st.runes[end..]), 0,
              st.out + [TrimRight(st.runes[st.start..end], IsBlank) + "\n" + FENCE])
  }

  /** One turn of the source's loop, on any state and any maxLen > 0. */
  function Step(st: State, maxLen: int): (r: State)
    requires 0 < maxLen && Valid(st) && st.Running?
    ensures Valid(r)
  {
    if st.start >= |st.runes| then Done(st.out)
    else if |st.runes| - st.start <= maxLen then Done(st.out + [st.runes[st.start..]])
    else Apply(st, ChooseCut(st.runes, st.start, maxLen))
  }

  function Next(st: State, maxLen: int): (r: State)
    requires 0 < maxLen && Valid(st)
    ensures Valid(r)
  {
    if st.Running? then Step(st, maxLen) else st
  }

  /** The loop's variables after n turns; a loop that has ended stays put. */
  function StepN(st: State, maxLen: int, n: nat): (r: State)
    requires 0 < maxLen && Valid(st)
    ensures Valid(r)
  {
    if n == 0 then st else Next(StepN(st, maxLen, n - 1), maxLen)
  }

  function Start(content: string): State { Running(content, 0, []) }

  /** The loop ends normally on this text. */
  ghost predicate Returns(content: string, maxLen: int) {
    0 < maxLen ==> exists n: nat :: StepN(Start(content), maxLen, n).Done?
  }

  ghost predicate Diverges(content: string, maxLen: int) {
    0 < maxLen && forall n: nat :: StepN(Start(content), maxLen, n).Running?
  }

  /** The header is the fence line less its trailing space. */
  lemma {:induction false} HeaderShape(s: string, fence: nat)
    requires FenceAt(s, fence)
    ensures var h := Header(s, fence);
            3 <= |h| <= |FenceLine(s, fence)| && h == s[fence..fence + |h|] && FenceAt(h, 0) && !IsSpace(Last(h))
    ensures HeaderEnd(s, fence) == fence + |FenceLine(s, fence)|
  {
    var line := FenceLine(s, fence);
    FencedTrim(line);
    if NewlineFrom(s, fence) == -1 {
      assert TrimSpace(line) == line;
    }
  }

  lemma {:induction false} FencedTrim(line: string)
    requires FenceAt(line, 0)
    ensures var h := TrimSpace(line);
            3 <= |h| <= |line| && h == line[..|h|] && FenceAt(h, 0) && !IsSpace(Last(h))
  {
    TrimSpaceKeepsHead(line);
    TrimRightDrops(line, IsSpace);
    assert !IsSpace(line[2]);
  }

  function Last(s: string): char
    requires s != []
  {
    s[|s| - 1]
  }

  // ------------------------------------------------------------------ every run

  /** What holds at the start and is kept by every turn holds after any number of turns. */
  lemma {:induction false} RunInduction(st: State, maxLen: int, inv: (State, nat) -> bool, n: nat)
    requires 0 < maxLen && Valid(st) && inv(st, 0)
    requires forall s: State, k: nat :: Valid(s) && inv(s, k) ==> inv(Next(s, maxLen), k + 1)
    ensures inv(StepN(st, maxLen, n), n)
  {
    if n != 0 {
      RunInduction(st, maxLen, inv, n - 1);
    }
  }

  function Rest(st: State): string
    requires Valid(st)
  {
    if st.Running? then st.runes[st.start..] else []
  }

  function Flat(chunks: seq<string>): string {
    if chunks == [] then [] else Flat(chunks[..|chunks| - 1]) + chunks[|chunks| - 1]
  }

  ghost predicate Bounded(chunks: seq<string>, maxLen: int) {
    forall i :: 0 <= i < |chunks| ==> |chunks[i]| <= maxLen
  }

  /** The non-whitespace runes of the input survive, in order, in what was sent plus what remains. */
  ghost predicate InkKept(ink: string, st: State)
    requires Valid(st)
  {
    Subseq(ink, Ink(Flat(st.out)) + Ink(Rest(st)))
  }

  lemma {:induction false} StepBounded(st: State, maxLen: int)
    requires 0 < maxLen && Valid(st) && st.Running? && Bounded(st.out, maxLen)
    ensures Bounded(Step(st, maxLen).out, maxLen)
  {
  }

  lemma {:induction false} FlatSnoc(chunks: seq<string>, c: string)
    ensures Ink(Flat(chunks + [c])) == Ink(Flat(chunks)) + Ink(c)
  {
    assert (chunks + [c])[..|chunks|] == chunks;
    InkConcat(Flat(chunks), c);
  }

  lemma {:induction false} GapInk(chunk: string, gap: string, rest: string)
    requires forall i :: 0 <= i < |gap| ==> IsSpace(gap[i])
    ensures Ink(chunk + (gap + rest)) == Ink(chunk) + Ink(rest)
  {
    InkConcat(gap, rest);
    InkOfSpace(gap);
    InkConcat(chunk, gap + rest);
    assert [] + Ink(rest) == Ink(rest);
  }

  /** A plain cut loses nothing but the blanks it skips. */
  lemma {:induction false} PlainInk(s: string, start: nat, end: nat)
    requires start <= end <= |s|
    ensures Ink(s[start..]) == Ink(s[start..end]) + Ink(s[SkipBlank(s, end)..])
  {
    var next := SkipBlank(s, end);
    assert s[end..] == s[end..next] + s[next..];
    assert s[start..] == s[start..end] + s[end..];
    GapInk(s[start..end], s[end..next], s[next..]);
  }

  lemma {:induction false} ClosedInk(body: string)
    ensures Subseq(Ink(body), Ink(TrimRight(body, IsBlank) + "\n" + FENCE))
  {
    var kept, close := TrimRight(body, IsBlank), "\n" + FENCE;
    assert kept + "\n" + FENCE == kept + close;
    InkConcat(kept, close);
    InkTrimRight(body, IsBlank);
    SubseqRefl(Ink(body));
    SubseqConcat(Ink(body), Ink(body), [], Ink(close));
    assert Ink(body) + [] == Ink(body);
  }

  lemma {:induction false} ReopenedInk(header: string, tail: string)
    ensures Subseq(Ink(tail), Ink(TrimSpace(header + "\n" + tail)))
  {
    var open := header + "\n";
    InkTrimSpace(open + tail);
    InkConcat(open, tail);
    SubseqRefl(Ink(tail));
    SubseqConcat([], Ink(open), Ink(tail), Ink(tail));
    assert [] + Ink(tail) == Ink(tail);
  }

  /** A reopening cut only adds: the closing fence to the chunk and the header to the rest. */
  lemma {:induction false} ReopenInk(s: string, start: nat, end: nat, header: string)
    requires start <= end <= |s|
    ensures Subseq(Ink(s[start..]),
                   Ink(TrimRight(s[start..end], IsBlank) + "\n" + FENCE) + Ink(TrimSpace(header + "\n" + s[end..])))
  {
    var body, tail := s[start..end], s[end..];
    assert s[start..] == body + tail;
    InkConcat(body, tail);
    ClosedInk(body);
    ReopenedInk(header, tail);
    SubseqConcat(Ink(body), Ink(TrimRight(body, IsBlank) + "\n" + FENCE),
                 Ink(tail), Ink(TrimSpace(header + "\n" + tail)));
  }

  lemma {:induction false} EmitInk(ink: string, st: State, chunk: string, rest: string)
    requires Valid(st) && st.Running? && InkKept(ink, st)
    requires Subseq(Ink(Rest(st)), Ink(chunk) + Ink(rest))
    ensures Subseq(ink, Ink(Flat(st.out + [chunk])) + Ink(rest))
  {
    FlatSnoc(st.out, chunk);
    SubseqReplace(ink, Ink(Flat(st.out)), Ink(Rest(st)), Ink(chunk), Ink(rest));
  }

  lemma {:induction false} StepInk(ink: string, st: State, maxLen: int)
    requires 0 < maxLen && Valid(st) && st.Running? && InkKept(ink, st)
    ensures InkKept(ink, Step(st, maxLen))
  {
    var s, start := st.runes, st.start;
    if start >= |s| {
      assert Rest(st) == [];
    } else if |s| - start <= maxLen {
      SubseqRefl(Ink(Rest(st)));
      assert Ink(Rest(st)) + Ink([]) == Ink(Rest(st));
      EmitInk(ink, st, s[start..], []);
    } else {
      match ChooseCut(s, start, maxLen)
      case Plain(end) =>
        PlainInk(s, start, end);
        SubseqRefl(Ink(Rest(st)));
        EmitInk(ink, st, s[start..end], s[SkipBlank(s, end)..]);
      case Reopen(end, header) =>
        ReopenInk(s, start, end, header);
        EmitInk(ink, st, TrimRight(s[start..end], IsBlank) + "\n" + FENCE, TrimSpace(header + "\n" + s[end..]));
    }
  }

  lemma {:induction false} NextSafe(ink: string, st: State, maxLen: int)
    requires 0 < maxLen && Valid(st) && InkKept(ink, st) && Bounded(st.out, maxLen)
    ensures InkKept(ink, Next(st, maxLen)) && Bounded(Next(st, maxLen).out, maxLen)
  {
    if st.Running? {
      StepInk(ink, st, maxLen);
      StepBounded(st, maxLen);
    }
  }

  lemma {:induction false} RunSafe(ink: string, st: State, maxLen: int, n: nat)
    requires 0 < maxLen && Valid(st) && InkKept(ink, st) && Bounded(st.out, maxLen)
    ensures InkKept(ink, StepN(st, maxLen, n)) && Bounded(StepN(st, maxLen, n).out, maxLen)
  {
    var inv := (s: State, k: nat) => Valid(s) && InkKept(ink, s) && Bounded(s.out, maxLen);
    forall s: State, k: nat | Valid(s) && inv(s, k)
      ensures inv(Next(s, maxLen), k + 1)
    {
      NextSafe(ink, s, maxLen);
    }
    RunInduction(st, maxLen, inv, n);
  }

  /**
   Whatever the text, after every number of turns, also when the loop never ends: no chunk is too long,
   and the chunks with what is left hold all ink in order.
   */
  lemma {:induction false} ChunksAreSafe(content: string, maxLen: int, n: nat)
    requires 0 < maxLen
    ensures var r := StepN(Start(content), maxLen, n);
            Bounded(r.out, maxLen) && InkKept(Ink(content), r)
    ensures var r := StepN(Start(content), maxLen, n);
            r.Done? ==> Bounded(r.out, maxLen) && Subseq(Ink(content), Ink(Flat(r.out)))
  {
    SubseqRefl(Ink(content));
    assert Ink(Flat([])) + Ink(Rest(Start(content))) == Ink(content);
    RunSafe(Ink(content), Start(content), maxLen, n);
    var r := StepN(Start(content), maxLen, n);
    if r.Done? {
      assert Ink(Flat(r.out)) + Ink(Rest(r)) == Ink(Flat(r.out));
    }
  }

  // ------------------------------------------------------------------ text without fences

  ghost predicate FenceFree(s: string) { forall i :: !FenceAt(s, i) }

  /** chunk, gap, chunk, gap, ... */
  function Weave(chunks: seq<string>, gaps: seq<string>): string
    requires |chunks| == |gaps|
  {
    if chunks == [] then []
    else Weave(chunks[..|chunks| - 1], gaps[..|gaps| - 1]) + chunks[|chunks| - 1] + gaps[|gaps| - 1]
  }

  ghost predicate AllBlank(gaps: seq<string>) {
    forall i, k :: 0 <= i < |gaps| && 0 <= k < |gaps[i]| ==> IsBlank(gaps[i][k])
  }

  lemma {:induction false} WeaveSnoc(chunks: seq<string>, gaps: seq<string>, c: string, g: string)
    requires |chunks| == |gaps|
    ensures Weave(chunks + [c], gaps + [g]) == Weave(chunks, gaps) + c + g
  {
    assert (chunks + [c])[..|chunks|] == chunks && (gaps + [g])[..|gaps|] == gaps;
  }

  ghost predicate Woven(content: string, st: State, gaps: seq<string>) {
    && |gaps| == |st.out| && AllBlank(gaps)
    && if st.Done? then content == Weave(st.out, gaps)
       else st.runes == content && st.start <= |content| && content[..st.start] == Weave(st.out, gaps)
  }

  lemma {:induction false} FenceFreeStep(
      content: string, st: State, gaps: seq<string>, maxLen: int) returns (more: seq<string>)
    requires 0 < maxLen && FenceFree(content) && st.Running? && Woven(content, st, gaps)
    ensures Woven(content, Step(st, maxLen), more)
  {
    var start := st.start;
    if start >= |content| {
      assert content[..start] == content;
      return gaps;
    }
    if |content| - start <= maxLen {
      WeaveSnoc(st.out, gaps, content[start..], "");
      assert content[..start] + content[start..] + "" == content;
      return gaps + [""];
    }
    var end := NaturalEnd(content, start, maxLen);
    UnclosedWithoutFence(content, start, end, false, -1);
    assert ChooseCut(content, start, maxLen) == Plain(end);
    var next := SkipBlank(content, end);
    var gap := content[end..next];
    WeaveSnoc(st.out, gaps, content[start..end], gap);
    assert content[..next] == content[..start] + content[start..end] + gap;
    more := gaps + [gap];
  }

  ghost predicate CanWeave(content: string, st: State) {
    exists gaps: seq<string> :: Woven(content, st, gaps)
  }

  lemma {:induction false} FenceFreeTurn(content: string, st: State, maxLen: int)
    requires 0 < maxLen && FenceFree(content) && Valid(st) && CanWeave(content, st)
    ensures CanWeave(content, Next(st, maxLen))
  {
    var gaps: seq<string> :| Woven(content, st, gaps);
    if st.Running? {
      var more := FenceFreeStep(content, st, gaps, maxLen);
    }
  }

  /** Without fences the input is exactly chunk, blank gap, chunk, blank gap, and so on. */
  lemma {:induction false} FenceFreeIsExact(content: string, maxLen: int, n: nat) returns (gaps: seq<string>)
    requires 0 < maxLen && FenceFree(content) && StepN(Start(content), maxLen, n).Done?
    ensures var out := StepN(Start(content), maxLen, n).out;
            |gaps| == |out| && AllBlank(gaps) && content == Weave(out, gaps)
  {
    var inv := (s: State, k: nat) => CanWeave(content, s);
    forall s: State, k: nat | Valid(s) && inv(s, k)
      ensures inv(Next(s, maxLen), k + 1)
    {
      FenceFreeTurn(content, s, maxLen);
    }
    assert Woven(content, Start(content), []);
    RunInduction(Start(content), maxLen, inv, n);
    assert inv(StepN(Start(content), maxLen, n), n);
    gaps :| Woven(content, StepN(Start(content), maxLen, n), gaps);
  }

  // ------------------------------------------------------------------ when the loop ends

  /** Every fence line, trimmed, leaves room for itself, the cut and a closing fence. */
  ghost predicate HeadersFit(s: string, maxLen: int) {
    forall i :: FenceAt(s, i) ==> |Header(s, i)| + 7 <= maxLen
  }

  function Left(st: State): int {
    if st.Running? then |st.runes| - st.start else -1
  }

  /** A newline found in the later window is not before the cut that the earlier window suggests. */
  lemma {:induction false} LaterWindow(s: string, start: nat, end: nat, inner: nat)
    requires start <= end <= inner <= |s|
    ensures var newline := FindLast(s, start, end, 200, IsNewline);
            var better := FindLast(s, start, inner, 200, IsNewline);
            better > start ==> better >= if newline > start then newline else end
  {
    var newline := FindLast(s, start, end, 200, IsNewline);
    var better := FindLast(s, start, inner, 200, IsNewline);
    LastMatchIsLast(s, Max(end - 200, start), end, IsNewline, start - 1);
    LastMatchIsLast(s, Max(inner - 200, start), inner, IsNewline, start - 1);
    if better > start && better < end {
      assert IsNewline(s[better]);
      if newline > start {
        assert IsNewline(s[newline]);
      }
    }
  }

  lemma {:induction false} InnerEndNotBefore(s: string, start: nat, maxLen: int, fence: nat)
    requires 5 < maxLen < |s| - start && EffectiveLimit(maxLen) <= maxLen - 5
    requires start <= fence && FenceAt(s, fence)
    requires HeaderEnd(s, fence) < NaturalEnd(s, start, maxLen)
    ensures NaturalEnd(s, start, maxLen) <= InnerEnd(s, start, maxLen, fence)
  {
    LaterWindow(s, start, start + EffectiveLimit(maxLen), start + maxLen - 5);
  }

  /** A reopening cut of a fitting header consumes more than the header line it puts back. */
  lemma {:induction false} ReopenConsumes(s: string, start: nat, maxLen: int) returns (fence: nat)
    requires 0 < maxLen < |s| - start && HeadersFit(s, maxLen)
    requires ChooseCut(s, start, maxLen).Reopen?
    ensures FenceAt(s, fence) && ChooseCut(s, start, maxLen).header == Header(s, fence)
    ensures |Header(s, fence)| + 1 < ChooseCut(s, start, maxLen).end - start
  {
    var msgEnd := NaturalEnd(s, start, maxLen);
    fence := LastUnclosed(s, start, msgEnd, false, -1);
    HeaderShape(s, fence);
    if msgEnd > HeaderEnd(s, fence) + 20 {
      InnerEndNotBefore(s, start, maxLen, fence);
    }
  }

  lemma {:induction false} HeaderWithin(s: string, i: nat)
    requires FenceAt(s, i)
    ensures 3 <= |Header(s, i)| <= |FenceLine(s, i)|
  {
    HeaderShape(s, i);
  }

  lemma {:induction false} NewlineNoLater(s: string, from: nat, j: nat)
    requires from <= j < |s| && s[j] == '\n'
    ensures from <= NewlineFrom(s, from) <= j
    decreases j - from
  {
    if s[from] != '\n' {
      NewlineNoLater(s, from + 1, j);
    }
  }

  /** A fence on the line of length h at the head of t: its own line is part of that line. */
  lemma {:induction false} HeadFence(t: string, h: nat, i: nat)
    requires h <= |t| && (h == |t| || t[h] == '\n')
    requires i <= h && FenceAt(t, i)
    ensures |Header(t, i)| <= h
  {
    HeaderWithin(t, i);
    if h < |t| {
      NewlineNoLater(t, i, h);
    }
  }

  /** The first newline after position i of a text is the first one after the same place in its prefix. */
  lemma {:induction false} NewlineInPrefix(a: string, i: nat, t: string)
    requires |t| <= |a| && t == a[..|t|] && NewlineFrom(t, i) != -1
    ensures NewlineFrom(a, i) == NewlineFrom(t, i)
    decreases |a| - i
  {
    assert t[i] == a[i];
    if a[i] != '\n' {
      NewlineInPrefix(a, i + 1, t);
    }
  }

  lemma {:induction false} FenceLineInPrefix(a: string, t: string, i: nat)
    requires |t| <= |a| && t == a[..|t|] && FenceAt(t, i)
    ensures FenceAt(a, i) && (FenceLine(t, i) == FenceLine(a, i) || |FenceLine(t, i)| == 3)
  {
    var nl := NewlineFrom(t, i);
    if nl != -1 {
      NewlineInPrefix(a, i, t);
      assert t[i..nl] == a[i..nl];
    }
  }

  lemma {:induction false} PrefixFence(a: string, t: string, i: nat)
    requires |t| <= |a| && t == a[..|t|] && FenceAt(t, i)
    ensures FenceAt(a, i) && |Header(t, i)| <= |Header(a, i)|
  {
    FenceLineInPrefix(a, t, i);
    HeaderWithin(a, i);
    HeaderWithin(t, i);
  }

  lemma {:induction false} NewlineInSuffix(a: string, k: nat, i: nat)
    requires k <= |a|
    ensures NewlineFrom(a[k..], i) == (if NewlineFrom(a, i + k) == -1 then -1 else NewlineFrom(a, i + k) - k)
    decreases |a| - i
  {
    if i + k < |a| && a[i + k] != '\n' {
      NewlineInSuffix(a, k, i + 1);
    }
  }

  lemma {:induction false} SuffixFence(a: string, k: nat, t: string, i: nat, j: nat)
    requires k <= |a| && t == a[k..] && j == i + k && FenceAt(t, i)
    ensures FenceAt(a, j) && Header(t, i) == Header(a, j)
  {
    NewlineInSuffix(a, k, i);
    var nl := NewlineFrom(a, j);
    var end := if nl == -1 then j + 3 else nl;
    assert FenceLine(t, i) == FenceLine(a, j) by {
      assert t[i..end - k] == a[j..end];
    }
  }

  lemma {:induction false} SuffixFenceUp(a: string, k: nat, i: nat)
    requires k <= |a| && k <= i && FenceAt(a, i)
    ensures FenceAt(a[k..], i - k)
  {
    assert a[k..][i - k] == a[i] && a[k..][i - k + 1] == a[i + 1] && a[k..][i - k + 2] == a[i + 2];
  }

  /** A fence in the common suffix of two texts has the same header in both. */
  lemma {:induction false} TailFence(s: string, end: nat, whole: string, k: nat, i: nat, p: nat)
    requires end <= |s| && k <= |whole| && whole[k..] == s[end..]
    requires k <= i && FenceAt(whole, i) && p == i - k + end
    ensures FenceAt(s, p) && Header(whole, i) == Header(s, p)
  {
    SuffixFenceUp(whole, k, i);
    var t, j := s[end..], i - k;
    SuffixFence(whole, k, t, j, i);
    SuffixFence(s, end, t, j, p);
  }

  /** Fences in the rewritten text are fences of the old text, or lie on the header that was put back. */
  lemma {:induction false} RewriteFits(s: string, fence: nat, end: nat, maxLen: int)
    requires FenceAt(s, fence) && end <= |s| && HeadersFit(s, maxLen)
    ensures HeadersFit(TrimSpace(Header(s, fence) + "\n" + s[end..]), maxLen)
  {
    var h := Header(s, fence);
    HeaderShape(s, fence);
    var whole := h + "\n" + s[end..];
    TrimSpaceKeepsHead(whole);
    var k := |TrimSpace(whole)|;
    assert whole[|h|] == '\n' && whole[|h| + 1..] == s[end..];
    forall i | FenceAt(whole[..k], i)
      ensures |Header(whole[..k], i)| + 7 <= maxLen
    {
      PrefixFence(whole, whole[..k], i);
      if i <= |h| {
        HeadFence(whole, |h|, i);
      } else {
        TailFence(s, end, whole, |h| + 1, i, i - |h| - 1 + end);
      }
    }
  }

  /** The rest gets shorter on every turn, also where text is put back. */
  lemma {:induction false} StepShrinks(st: State, maxLen: int)
    requires 5 <= maxLen && Valid(st) && st.Running? && HeadersFit(st.runes, maxLen)
    ensures Left(Step(st, maxLen)) < Left(st)
    ensures Step(st, maxLen).Running? ==> HeadersFit(Step(st, maxLen).runes, maxLen)
  {
    var s, start := st.runes, st.start;
    if |s| - start > maxLen {
      var cut := ChooseCut(s, start, maxLen);
      if cut.Reopen? {
        var fence := ReopenConsumes(s, start, maxLen);
        RewriteFits(s, fence, cut.end, maxLen);
        TrimSpaceShorter(cut.header + "\n" + s[cut.end..]);
      }
    }
  }

  ghost predicate FitsAt(st: State, maxLen: int, bound: int, turns: nat)
    requires Valid(st)
  {
    st.Running? ==> HeadersFit(st.runes, maxLen) && turns <= bound - Left(st)
  }

  lemma {:induction false} FittingTurn(st: State, maxLen: int, bound: int, turns: nat)
    requires 5 <= maxLen && Valid(st) && FitsAt(st, maxLen, bound, turns)
    ensures FitsAt(Next(st, maxLen), maxLen, bound, turns + 1)
  {
    if st.Running? {
      StepShrinks(st, maxLen);
    }
  }

  lemma {:induction false} FittingRun(content: string, maxLen: int)
    requires 5 <= maxLen && HeadersFit(content, maxLen)
    ensures StepN(Start(content), maxLen, |content| + 1).Done?
  {
    var inv := (s: State, k: nat) => Valid(s) && FitsAt(s, maxLen, |content|, k);
    forall s: State, k: nat | Valid(s) && inv(s, k)
      ensures inv(Next(s, maxLen), k + 1)
    {
      FittingTurn(s, maxLen, |content|, k);
    }
    RunInduction(Start(content), maxLen, inv, |content| + 1);
    assert inv(StepN(Start(content), maxLen, |content| + 1), |content| + 1);
  }

  /** Below five the window is too narrow to see a fence at all, and every cut is plain. */
  lemma {:induction false} NarrowRun(content: string, maxLen: int)
    requires 0 < maxLen < 5
    ensures StepN(Start(content), maxLen, |content| + 1).Done?
  {
    var inv := (s: State, k: nat) => Valid(s) && (s.Running? ==> k <= |content| - Left(s));
    RunInduction(Start(content), maxLen, inv, |content| + 1);
    assert inv(StepN(Start(content), maxLen, |content| + 1), |content| + 1);
  }

  /** The call returns whenever every fence line fits, or maxLen is too small to see a fence. */
  lemma {:induction false} SplitReturns(content: string, maxLen: int)
    requires maxLen < 5 || HeadersFit(content, maxLen)
    ensures Returns(content, maxLen)
  {
    if 0 < maxLen < 5 {
      NarrowRun(content, maxLen);
    } else if 0 < maxLen {
      FittingRun(content, maxLen);
    }
  }

  // ------------------------------------------------------------------ when it does not

  /**
   The text starts with a fence whose line does not fit, has no other fence within reach of one
   chunk, and is longer than a chunk.
   */
  ghost predicate Stuck(s: string, maxLen: int) {
    && 5 <= maxLen < |s| && FenceAt(s, 0) && maxLen < |Header(s, 0)| + 7
    && (forall i :: 0 < i <= maxLen - 3 ==> !FenceAt(s, i))
  }

  /** What one turn makes of a stuck text. */
  function Rewritten(s: string, maxLen: int): string
    requires 5 <= maxLen < |s| && FenceAt(s, 0)
  {
    TrimSpace(Header(s, 0) + "\n" + s[maxLen - 5..])
  }

  /** A stuck text without space at its end, which is what it is rewritten to. */
  ghost predicate Looping(s: string, maxLen: int) { Stuck(s, maxLen) && !IsSpace(Last(s)) }

  /** A fence at the head of the chunk is never cut through. */
  lemma {:induction false} HeadFenceUncut(s: string, maxLen: int)
    requires 5 <= maxLen < |s| && FenceAt(s, 0)
    ensures 3 <= NaturalEnd(s, 0, maxLen)
  {
    var end := EffectiveLimit(maxLen);
    LastMatchIsLast(s, Max(end - 200, 0), end, IsNewline, -1);
    LastMatchIsLast(s, Max(end - 100, 0), end, IsGap, -1);
  }

  lemma {:induction false} StuckCut(s: string, maxLen: int)
    requires Stuck(s, maxLen)
    ensures ChooseCut(s, 0, maxLen) == Reopen(maxLen - 5, Header(s, 0))
  {
    HeadFenceUncut(s, maxLen);
    var msgEnd := NaturalEnd(s, 0, maxLen);
    assert LastUnclosed(s, 0, msgEnd, false, -1) == LastUnclosed(s, 3, msgEnd, true, 0);
    UnclosedWithoutFence(s, 3, msgEnd, true, 0);
    HeaderShape(s, 0);
    assert CutBefore(s, 0, maxLen, 0) == Reopen(maxLen - 5, Header(s, 0));
  }

  lemma {:induction false} HeadRunes(h: string, tail: string, s: string, i: nat)
    requires h <= s && i + 2 < |h|
    ensures FenceAt(h + "\n" + tail, i) == FenceAt(s, i)
  {
    var t := h + "\n" + tail;
    assert t[i] == h[i] && t[i + 1] == h[i + 1] && t[i + 2] == h[i + 2];
  }

  lemma {:induction false} TailRunes(h: string, tail: string, s: string, from: nat, i: nat, p: nat)
    requires from <= |s| && tail == s[from..] && |h| < i && p == from + (i - |h| - 1)
    ensures FenceAt(h + "\n" + tail, i) == FenceAt(s, p)
  {
    var t := h + "\n" + tail;
    assert t[|h| + 1..] == s[from..];
    if i + 2 < |t| {
      assert t[i] == tail[p - from] && t[i + 1] == tail[p - from + 1] && t[i + 2] == tail[p - from + 2];
    }
  }

  /** A second fence in reach after the rewrite would have been in reach before it. */
  lemma {:induction false} StuckFence(s: string, maxLen: int, h: string, tail: string, i: nat)
    requires 5 <= maxLen < |s| && forall k :: 0 < k <= maxLen - 3 ==> !FenceAt(s, k)
    requires h <= s && 3 <= |h| && maxLen < |h| + 7
    requires tail == s[maxLen - 5..]
    requires 0 < i <= maxLen - 3
    ensures !FenceAt(h + "\n" + tail, i)
  {
    if i + 2 < |h| {
      HeadRunes(h, tail, s, i);
    } else if |h| < i {
      TailRunes(h, tail, s, maxLen - 5, i, maxLen - 5 + (i - |h| - 1));
    } else {
      assert (h + "\n" + tail)[|h|] == '\n';
    }
  }

  /** Trimming leaves a text alone when neither end is space. */
  lemma {:induction false} TrimSpaceInert(s: string)
    requires s != [] && !IsSpace(s[0]) && !IsSpace(Last(s))
    ensures TrimSpace(s) == s
  {
  }

  /** A text that starts with ink is trimmed to its last rune that is not space. */
  lemma {:induction false} TrimSpaceTo(s: string, k: nat)
    requires 0 < k <= |s| && !IsSpace(s[0]) && !IsSpace(s[k - 1]) && forall i :: k <= i < |s| ==> IsSpace(s[i])
    ensures TrimSpace(s) == s[..k]
  {
    if k < |s| {
      var init := s[..|s| - 1];
      TrimSpaceTo(init, k);
      assert init[..k] == s[..k];
    } else {
      assert s[..k] == s;
    }
  }

  /** The end of the ink of a text that starts with ink. */
  lemma {:induction false} InkEnd(s: string) returns (k: nat)
    requires s != [] && !IsSpace(s[0])
    ensures 0 < k <= |s| && !IsSpace(s[k - 1]) && (forall i :: k <= i < |s| ==> IsSpace(s[i]))
    ensures k == |TrimSpace(s)|
  {
    k := |s|;
    while IsSpace(s[k - 1])
      invariant 0 < k <= |s| && forall i :: k <= i < |s| ==> IsSpace(s[i])
      decreases k
    {
      k := k - 1;
    }
    TrimSpaceTo(s, k);
  }

  /** The header of a fence line is a line. */
  lemma {:induction false} HeaderIsLine(s: string)
    requires FenceAt(s, 0)
    ensures var h := Header(s, 0);
            3 <= |h| && h <= s && FenceAt(h, 0) && !IsSpace(Last(h)) && forall i :: 0 <= i < |h| ==> h[i] != '\n'
  {
    HeaderShape(s, 0);
    NewlineFromIsFirst(s, 0, NewlineFrom(s, 0));
  }

  /** A line that opens a text and goes on behind a newline is its header. */
  lemma {:induction false} HeaderOfLine(h: string, t: string)
    requires FenceAt(h, 0) && !IsSpace(Last(h)) && (forall i :: 0 <= i < |h| ==> h[i] != '\n')
    requires |h| < |t| && h <= t && t[|h|] == '\n'
    ensures FenceAt(t, 0) && Header(t, 0) == h
  {
    NewlineFromIsFirst(t, 0, |h|);
    assert FenceLine(t, 0) == h;
    TrimSpaceInert(h);
  }

  /** Where the ink of h, a newline and s[from..] ends, by where that of s does. */
  lemma {:induction false} WholeInkEnd(h: string, s: string, from: nat, k: nat, whole: string, n: nat)
    requires h != [] && !IsSpace(h[0]) && !IsSpace(Last(h)) && from <= |s| && whole == h + "\n" + s[from..]
    requires 0 < k <= |s| && !IsSpace(s[k - 1]) && forall i :: k <= i < |s| ==> IsSpace(s[i])
    requires n == if k > from then |h| + 1 + k - from else |h|
    ensures n <= |whole| && TrimSpace(whole) == whole[..n] && !IsSpace(whole[n - 1])
  {
    assert whole[..|h|] == h && whole[|h|] == '\n';
    forall i | |h| < i < |whole|
      ensures whole[i] == s[i - |h| - 1 + from]
    {
      assert whole[|h| + 1..] == s[from..];
    }
    TrimSpaceTo(whole, n);
  }

  /** The rewritten text is the header, a newline and the rest, as far as there is ink. */
  lemma {:induction false} RewrittenPrefix(s: string, maxLen: int, h: string, whole: string)
    requires Stuck(s, maxLen) && h == Header(s, 0) && whole == h + "\n" + s[maxLen - 5..]
    ensures var t, k := Rewritten(s, maxLen), |TrimSpace(s)|;
            && |t| == (if k > maxLen - 5 then |h| + 6 + k - maxLen else |h|) <= |whole|
            && t == whole[..|t|] && t != [] && !IsSpace(Last(t)) && |h| <= k
  {
    HeaderIsLine(s);
    var k := InkEnd(s);
    assert s[|h| - 1] == Last(h);
    WholeInkEnd(h, s, maxLen - 5, k, whole, if k > maxLen - 5 then |h| + 6 + k - maxLen else |h|);
  }

  /** What does not fit after one rewriting is stuck again, now without space at its end. */
  lemma {:induction false} RewrittenLoops(s: string, maxLen: int)
    requires Stuck(s, maxLen) && maxLen < |Rewritten(s, maxLen)|
    ensures Looping(Rewritten(s, maxLen), maxLen)
  {
    var h, tail, t := Header(s, 0), s[maxLen - 5..], Rewritten(s, maxLen);
    var whole := h + "\n" + tail;
    RewrittenPrefix(s, maxLen, h, whole);
    HeaderIsLine(s);
    assert whole[|h|] == '\n';
    HeaderOfLine(h, t);
    forall i | 0 < i <= maxLen - 3
      ensures !FenceAt(t, i)
    {
      StuckFence(s, maxLen, h, tail, i);
      assert FenceAt(t, i) ==> FenceAt(whole, i);
    }
  }

  lemma {:induction false} LoopingAgain(s: string, maxLen: int)
    requires Looping(s, maxLen)
    ensures Looping(Rewritten(s, maxLen), maxLen)
  {
    TrimSpaceInert(s);
    RewrittenPrefix(s, maxLen, Header(s, 0), Header(s, 0) + "\n" + s[maxLen - 5..]);
    RewrittenLoops(s, maxLen);
  }

  ghost predicate LoopingState(st: State, maxLen: int) { st.Running? && st.start == 0 && Looping(st.runes, maxLen) }

  lemma {:induction false} LoopingTurn(st: State, maxLen: int)
    requires 0 < maxLen && LoopingState(st, maxLen)
    ensures LoopingState(Next(st, maxLen), maxLen)
  {
    StuckCut(st.runes, maxLen);
    LoopingAgain(st.runes, maxLen);
  }

  lemma {:induction false} LoopingKept(maxLen: int, inv: (State, nat) -> bool)
    requires 0 < maxLen && forall s: State, k: nat :: inv(s, k) <==> LoopingState(s, maxLen)
    ensures forall s: State, k: nat :: Valid(s) && inv(s, k) ==> inv(Next(s, maxLen), k + 1)
  {
    forall s: State, k: nat | Valid(s) && inv(s, k)
      ensures inv(Next(s, maxLen), k + 1)
    {
      LoopingTurn(s, maxLen);
    }
  }

  lemma {:induction false} LoopingForever(content: string, maxLen: int, n: nat)
    requires Looping(content, maxLen)
    ensures StepN(Start(content), maxLen, n).Running?
  {
    var inv := (s: State, k: nat) => LoopingState(s, maxLen);
    LoopingKept(maxLen, inv);
    RunInduction(Start(content), maxLen, inv, n);
    assert inv(StepN(Start(content), maxLen, n), n);
  }

  /** The same text is left, whatever chunks were sent before. */
  ghost predicate SameRest(a: State, b: State) {
    if a.Done? then b.Done? else b.Running? && a.runes == b.runes && a.start == b.start
  }

  lemma {:induction false} SameTurn(a: State, b: State, maxLen: int)
    requires 0 < maxLen && Valid(a) && Valid(b) && SameRest(a, b)
    ensures SameRest(Next(a, maxLen), Next(b, maxLen))
  {
  }

  lemma {:induction false} StuckTurn(s: string, maxLen: int)
    requires Stuck(s, maxLen)
    ensures SameRest(Next(Start(s), maxLen), Start(Rewritten(s, maxLen)))
  {
    StuckCut(s, maxLen);
  }

  /** A stuck text behaves as the one it is rewritten to. */
  lemma {:induction false} StuckPeel(s: string, t: string, maxLen: int, n: nat)
    requires Stuck(s, maxLen) && t == Rewritten(s, maxLen)
    ensures SameRest(StepN(Start(s), maxLen, n + 1), StepN(Start(t), maxLen, n))
  {
    if n == 0 {
      StuckTurn(s, maxLen);
      assert StepN(Start(s), maxLen, 0) == Start(s);
    } else {
      StuckPeel(s, t, maxLen, n - 1);
      SameTurn(StepN(Start(s), maxLen, n), StepN(Start(t), maxLen, n - 1), maxLen);
    }
  }

  lemma {:induction false} StuckReturns(s: string, t: string, maxLen: int)
    requires Stuck(s, maxLen) && t == Rewritten(s, maxLen) && |t| <= maxLen
    ensures Returns(s, maxLen)
  {
    assert StepN(Start(t), maxLen, 0) == Start(t);
    StuckPeel(s, t, maxLen, 1);
    assert StepN(Start(s), maxLen, 2).Done?;
  }

  lemma {:induction false} StuckRuns(s: string, t: string, maxLen: int, n: nat)
    requires Stuck(s, maxLen) && t == Rewritten(s, maxLen) && Looping(t, maxLen)
    ensures StepN(Start(s), maxLen, n).Running?
  {
    if n > 0 {
      var m := n - 1;
      StuckPeel(s, t, maxLen, m);
      LoopingForever(t, maxLen, m);
    }
  }

  lemma {:induction false} StuckLoops(s: string, t: string, maxLen: int)
    requires Stuck(s, maxLen) && t == Rewritten(s, maxLen) && maxLen < |t|
    ensures Diverges(s, maxLen)
  {
    RewrittenLoops(s, maxLen);
    forall n: nat
      ensures StepN(Start(s), maxLen, n).Running?
    {
      StuckRuns(s, t, maxLen, n);
    }
  }

  /**
   A stuck text is sent, after one rewriting, when its fence line and its ink together are short
   enough; otherwise the loop never ends.
   */
  lemma {:induction false} StuckReturnsIff(content: string, maxLen: int)
    requires Stuck(content, maxLen)
    ensures Returns(content, maxLen) <==> |Header(content, 0)| + |TrimSpace(content)| + 6 <= 2 * maxLen
    ensures Returns(content, maxLen) <==> |Rewritten(content, maxLen)| <= maxLen
    ensures Returns(content, maxLen) || Diverges(content, maxLen)
  {
    var t := Rewritten(content, maxLen);
    RewrittenPrefix(content, maxLen, Header(content, 0), Header(content, 0) + "\n" + content[maxLen - 5..]);
    if |t| <= maxLen {
      StuckReturns(content, t, maxLen);
    } else {
      StuckLoops(content, t, maxLen);
    }
  }

  /** The loop never ends on a stuck text with more ink than a chunk holds, whatever follows the first chunk. */
  lemma {:induction false} StuckDiverges(content: string, maxLen: int)
    requires Stuck(content, maxLen) && maxLen < |TrimSpace(content)|
    ensures Diverges(content, maxLen) && !Returns(content, maxLen)
  {
    StuckReturnsIff(content, maxLen);
  }

  lemma {:induction false} ShortReturns(content: string, maxLen: int)
    requires |content| <= maxLen
    ensures Returns(content, maxLen)
  {
    if 0 < maxLen {
      assert StepN(Start(content), maxLen, 0) == Start(content);
      assert StepN(Start(content), maxLen, 1).Done?;
    }
  }

  /**
   For a text with its only fence at the head the call returns exactly when chunks are too small to see
   a fence, the text or the fence line fits, or the fence line and the ink together are short enough.
   */
  lemma {:induction false} OneBlockReturnsIff(content: string, maxLen: int)
    requires FenceAt(content, 0) && forall i :: 0 < i ==> !FenceAt(content, i)
    ensures Returns(content, maxLen) <==>
              || maxLen < 5 || |content| <= maxLen || |Header(content, 0)| + 7 <= maxLen
              || |Header(content, 0)| + |TrimSpace(content)| + 6 <= 2 * maxLen
  {
    if maxLen < 5 || |Header(content, 0)| + 7 <= maxLen {
      assert maxLen < 5 || HeadersFit(content, maxLen);
      SplitReturns(content, maxLen);
    } else if |content| <= maxLen {
      ShortReturns(content, maxLen);
    } else {
      StuckReturnsIff(content, maxLen);
    }
  }

  lemma {:induction false} OneFence(h: string, tail: string, i: nat)
    requires 0 < i && !FenceAt(h, i) && forall k :: !FenceAt(tail, k)
    ensures !FenceAt(h + "\n" + tail, i)
  {
    if i + 2 < |h| {
      HeadRunes(h, tail, h, i);
    } else if |h| < i {
      TailRunes(h, tail, tail, 0, i, i - |h| - 1);
    } else {
      assert (h + "\n" + tail)[|h|] == '\n';
    }
  }

  lemma {:induction false} OpenBlockFences(h: string, tail: string, t: string)
    requires FenceAt(h, 0) && !IsSpace(Last(h)) && (forall i :: 0 <= i < |h| ==> h[i] != '\n')
    requires (forall i :: 0 < i ==> !FenceAt(h, i)) && (forall i :: !FenceAt(tail, i)) && t == h + "\n" + tail
    ensures FenceAt(t, 0) && Header(t, 0) == h && forall i :: 0 < i ==> !FenceAt(t, i)
  {
    HeaderOfLine(h, t);
    forall i | 0 < i
      ensures !FenceAt(t, i)
    {
      OneFence(h, tail, i);
    }
  }

  /** A code block opened at the head by a fence line h that does not fit, and never closed. */
  lemma {:induction false} OpenBlockDiverges(h: string, tail: string, maxLen: int)
    requires FenceAt(h, 0) && !IsSpace(Last(h)) && (forall i :: 0 <= i < |h| ==> h[i] != '\n')
    requires (forall i :: 0 < i ==> !FenceAt(h, i)) && (forall i :: !FenceAt(tail, i))
    requires 5 <= maxLen < |h| + 7 && maxLen < |TrimSpace(h + "\n" + tail)|
    ensures Diverges(h + "\n" + tail, maxLen)
  {
    var t := h + "\n" + tail;
    OpenBlockFences(h, tail, t);
    TrimSpaceShorter(t);
    StuckDiverges(t, maxLen);
  }

  /** A fence line of nine runes and a last line break, for chunks of ten. */
  lemma {:induction false} GolangFenceDiverges()
    ensures Diverges("```golang" + "\n" + "x := 1\n", 10)
  {
    var t := "```golang" + "\n" + "x := 1\n";
    TrimSpaceTo(t, 16);
    OpenBlockDiverges("```golang", "x := 1\n", 10);
  }

  /** A window without newline, blank or whole fence is cut at its end. */
  lemma {:induction false} BareWindowCut(s: string, start: nat, maxLen: int, end: int)
    requires 0 < maxLen < |s| - start && end == start + EffectiveLimit(maxLen)
    requires forall i :: start <= i < end ==> !IsNewline(s[i]) && !IsGap(s[i])
    requires forall k :: start <= k && k + 2 < end ==> !FenceAt(s, k)
    ensures ChooseCut(s, start, maxLen) == Plain(end)
  {
    LastMatchIsLast(s, Max(end - 200, start), end, IsNewline, start - 1);
    LastMatchIsLast(s, Max(end - 100, start), end, IsGap, start - 1);
    UnclosedWithoutFence(s, start, end, false, -1);
  }

  lemma {:induction false} TwoCutsReturn(s: string, maxLen: int, a: nat, b: nat)
    requires 0 < maxLen < |s| - a && a < b < |s| <= b + maxLen
    requires ChooseCut(s, 0, maxLen) == Plain(a) && ChooseCut(s, a, maxLen) == Plain(b)
    requires !IsBlank(s[a]) && !IsBlank(s[b])
    ensures Returns(s, maxLen)
  {
    assert StepN(Start(s), maxLen, 0) == Start(s);
    assert StepN(Start(s), maxLen, 1) == Running(s, a, [s[0..a]]);
    assert StepN(Start(s), maxLen, 2) == Running(s, b, [s[0..a]] + [s[a..b]]);
    assert StepN(Start(s), maxLen, 3).Done?;
  }

  /**
   Behind other text a fence line can be harmless however long it is: with no newline or blank before
   it, the first cut of a chunk of ten goes through the fence.
   */
  lemma {:induction false} CutFenceReturns(s: string)
    requires |s| == 20 && (forall i :: 0 <= i < 10 ==> !IsNewline(s[i]) && !IsGap(s[i])) && !IsBlank(s[10])
    requires FenceAt(s, 4) && forall k :: k != 4 ==> !FenceAt(s, k)
    ensures Returns(s, 10)
  {
    BareWindowCut(s, 0, 10, 5);
    BareWindowCut(s, 5, 10, 10);
    assert !IsBlank(s[5]);
    TwoCutsReturn(s, 10, 5, 10);
  }

  // ------------------------------------------------------------------ the splitter

  method FindNaturalEnd(runes: string, start: nat, maxLen: int) returns (msgEnd: int)
    requires 0 < maxLen < |runes| - start
    ensures msgEnd == NaturalEnd(runes, start, maxLen)
  {
    var codeBlockBuffer := Max(maxLen / 10, 50);
    if codeBlockBuffer > maxLen / 2 {
      codeBlockBuffer := maxLen / 2;
    }
    var effectiveLimit := Max(maxLen - codeBlockBuffer, maxLen / 2);
    var end := start + effectiveLimit;
    msgEnd := FindLastNewlineInRange(runes, start, end, 200);
    if msgEnd <= start {
      msgEnd := FindLastSpaceInRange(runes, start, end, 100);
    }
    if msgEnd <= start {
      msgEnd := end;
    }
  }

  /** The cut before the code block, or inside it as a last resort. */
  method FindCutBefore(runes: string, start: nat, maxLen: int, unclosedIdx: nat, header: string) returns (cut: Cut)
    requires 5 <= maxLen < |runes| - start
    requires start <= unclosedIdx <= start + maxLen && FenceAt(runes, unclosedIdx)
    requires header == Header(runes, unclosedIdx)
    ensures cut == CutBefore(runes, start, maxLen, unclosedIdx)
  {
    var newEnd := FindLastNewlineInRange(runes, start, unclosedIdx, 200);
    if newEnd <= start {
      newEnd := FindLastSpaceInRange(runes, start, unclosedIdx, 100);
    }
    if newEnd > start {
      return Plain(newEnd);
    }
    if unclosedIdx - start > 20 {
      return Plain(unclosedIdx);
    }
    return Reopen(Min(start + maxLen - 5, |runes|), header);
  }

  method FindHeader(runes: string, unclosedIdx: nat) returns (header: string, headerEndIdx: nat)
    requires FenceAt(runes, unclosedIdx)
    ensures header == Header(runes, unclosedIdx) && headerEndIdx == HeaderEnd(runes, unclosedIdx)
  {
    var headerEnd := FindNewlineFrom(runes, unclosedIdx);
    header := TrimSpace(if headerEnd == -1 then runes[unclosedIdx..unclosedIdx + 3] else runes[unclosedIdx..headerEnd]);
    headerEndIdx := if headerEnd != -1 then headerEnd else unclosedIdx + |header|;
  }

  method FindInnerEnd(runes: string, start: nat, maxLen: int, unclosedIdx: nat, headerEndIdx: nat)
      returns (msgEnd: int)
    requires 5 < maxLen < |runes| - start
    requires start <= unclosedIdx && FenceAt(runes, unclosedIdx) && headerEndIdx == HeaderEnd(runes, unclosedIdx)
    ensures msgEnd == InnerEnd(runes, start, maxLen, unclosedIdx)
  {
    var innerLimit := Min(start + maxLen - 5, |runes|);
    var betterEnd := FindLastNewlineInRange(runes, start, innerLimit, 200);
    msgEnd := if betterEnd > headerEndIdx then betterEnd else innerLimit;
  }

  /** The cut of a chunk that would end inside the code block opened at unclosedIdx. */
  method FindOpenCut(runes: string, start: nat, maxLen: int, msgEnd: nat, unclosedIdx: nat) returns (cut: Cut)
    requires 0 < maxLen < |runes| - start
    requires start <= unclosedIdx && unclosedIdx + 2 < msgEnd <= start + EffectiveLimit(maxLen)
    requires FenceAt(runes, unclosedIdx)
    ensures cut == CutOpenBlock(runes, start, maxLen, msgEnd, unclosedIdx)
  {
    var closingIdx := FindNextClosingCodeBlockInRange(runes, msgEnd);
    if closingIdx > 0 && closingIdx - start <= maxLen {
      return Plain(closingIdx);
    }
    var header, headerEndIdx := FindHeader(runes, unclosedIdx);
    if msgEnd > headerEndIdx + 20 {
      var innerEnd := FindInnerEnd(runes, start, maxLen, unclosedIdx, headerEndIdx);
      return Reopen(innerEnd, header);
    }
    cut := FindCutBefore(runes, start, maxLen, unclosedIdx, header);
  }

  method FindCut(runes: string, start: nat, maxLen: int) returns (cut: Cut)
    requires 0 < maxLen < |runes| - start
    ensures cut == ChooseCut(runes, start, maxLen)
  {
    var msgEnd := FindNaturalEnd(runes, start, maxLen);
    var unclosedIdx := FindLastUnclosedCodeBlockInRange(runes, start, msgEnd);
    if unclosedIdx < 0 {
      return Plain(msgEnd);
    }
    cut := FindOpenCut(runes, start, maxLen, msgEnd, unclosedIdx);
  }

  method SkipLeadingBlank(runes: string, from: nat) returns (start: nat)
    requires from <= |runes|
    ensures start == SkipBlank(runes, from)
  {
    start := from;
    while start < |runes| && IsBlank(runes[start])
      invariant from <= start <= |runes|
      invariant SkipBlank(runes, from) == SkipBlank(runes, start)
    {
      start := start + 1;
    }
  }

  /**
   SplitMessage on every text for which the call returns at all.  The result has no chunk longer
   than maxLen and keeps every non-whitespace rune in order.
   */
  method SplitMessage(content: string, maxLen: int) returns (messages: seq<string>)
    requires Returns(content, maxLen)
    ensures maxLen <= 0 ==> messages == if content == "" then [] else [content]
    ensures 0 < maxLen ==> exists n: nat :: StepN(Start(content), maxLen, n) == Done(messages)
    ensures 0 < maxLen ==> Bounded(messages, maxLen) && Subseq(Ink(content), Ink(Flat(messages)))
  {
    if maxLen <= 0 {
      return if content == "" then [] else [content];
    }
    ghost var turns: nat :| StepN(Start(content), maxLen, turns).Done?;
    ghost var n := 0;
    var runes, start: nat := content, 0;
    messages := [];
    while start < |runes|
      invariant start <= |runes|
      invariant StepN(Start(content), maxLen, n) == Running(runes, start, messages)
      invariant n <= turns
      decreases turns - n
    {
      assert n < turns;
      var remaining := |runes| - start;
      if remaining <= maxLen {
        messages := messages + [runes[start..]];
        assert StepN(Start(content), maxLen, n + 1) == Done(messages);
        ChunksAreSafe(content, maxLen, n + 1);
        return;
      }
      var cut := FindCut(runes, start, maxLen);
      assert StepN(Start(content), maxLen, n + 1) == Apply(Running(runes, start, messages), cut);
      match cut {
        case Plain(msgEnd) =>
          messages := messages + [runes[start..msgEnd]];
          start := SkipLeadingBlank(runes, msgEnd);
        case Reopen(msgEnd, header) =>
          messages := messages + [TrimRight(runes[start..msgEnd], IsBlank) + "\n" + FENCE];
          runes := TrimSpace(header + "\n" + runes[msgEnd..]);
          start := 0;
      }
      n := n + 1;
    }
    assert StepN(Start(content), maxLen, n + 1) == Done(messages);
    ChunksAreSafe(content, maxLen, n + 1);
  }
}
