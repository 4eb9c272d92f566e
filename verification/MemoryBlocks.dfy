/**
 The memory file (pkg/agent/memory_blocks.go and OrganizeWriteback of memory.go): four labelled
 blocks, a parser and a printer for them, and a write-back that merges new entries into the two
 writable blocks within their limits. Text is a sequence of runes.
 */
module MemoryBlocks {
  import opened Text
  import opened Lines
  import opened Wrappers

  datatype Block = Persona | Human | Projects | Facts

  type Blocks = map<Block, string>

  const ORDER := [Persona, Human, Projects, Facts]

  function Name(block: Block): string {
    match block
    case Persona => "persona"
    case Human => "human"
    case Projects => "projects"
    case Facts => "facts"
  }

  function Limit(block: Block): nat {
    match block
    case Persona => 2400
    case Human => 3600
    case Projects => 6000
    case Facts => 9000
  }

  predicate ReadOnly(block: Block) { block.Persona? || block.Human? }

  function Get(blocks: Blocks, block: Block): string { if block in blocks then blocks[block] else "" }

  // ------------------------------------------------------------------ headings

  /** Case folding of the ASCII letters. */
  function Lower(s: string): (r: string)
    ensures |r| == |s|
  {
    if s == "" then "" else [if 'A' <= s[0] <= 'Z' then s[0] - 'A' + 'a' else s[0]] + Lower(s[1..])
  }

  function DropHashes(s: string): string { if s != "" && s[0] == '#' then DropHashes(s[1..]) else s }

  function DropBullets(s: string): string {
    if s != "" && (s[0] == '-' || s[0] == '*' || s[0] == '+') then DropBullets(s[1..]) else s
  }

  function Lookup(name: string): Option<Block> {
    if name == "persona" then Some(Persona)
    else if name == "human" then Some(Human)
    else if name == "projects" then Some(Projects)
    else if name == "facts" then Some(Facts)
    else None
  }

  /** The block that a line opens: a second-level heading with a block's name. */
  function Heading(raw: string): Option<Block> {
    var line := TrimSpace(raw);
    if |line| >= 2 && line[0] == '#' && line[1] == '#' && (|line| == 2 || line[2] != '#')
    then Lookup(Lower(TrimSpace(DropHashes(line))))
    else None
  }

  predicate NoHeadings(lines: seq<string>) { forall i :: 0 <= i < |lines| ==> Heading(lines[i]).None? }

  // ------------------------------------------------------------------ the parser

  datatype Parse = Parse(current: Option<Block>, buf: seq<string>, blocks: Blocks, found: bool)

  const START := Parse(None, [], map[], false)

  function Flush(p: Parse): Parse {
    if p.current.None? then p.(buf := [])
    else p.(blocks := p.blocks[p.current.value := TrimSpace(Join(p.buf))], buf := [])
  }

  function Feed(p: Parse, line: string): Parse {
    var heading := Heading(line);
    if heading.Some? then Flush(p).(current := heading, found := true)
    else if p.current.Some? then p.(buf := p.buf + [line])
    else p
  }

  function FeedAll(p: Parse, lines: seq<string>): Parse {
    if lines == [] then p else Feed(FeedAll(p, lines[..|lines| - 1]), lines[|lines| - 1])
  }

  function ParseBlocks(content: string): Parse { Flush(FeedAll(START, Split(content))) }

  method ParseMemoryBlocks(content: string) returns (blocks: Blocks, found: bool)
    ensures blocks == ParseBlocks(content).blocks && found == ParseBlocks(content).found
  {
    var lines := Split(content);
    var current: Option<Block>, buf: seq<string> := None, [];
    blocks, found := map[], false;
    var i := 0;
    while i < |lines|
      invariant 0 <= i <= |lines|
      invariant Parse(current, buf, blocks, found) == FeedAll(START, lines[..i])
    {
      assert lines[..i + 1][..i] == lines[..i];
      var heading := Heading(lines[i]);
      if heading.Some? {
        if current.Some? {
          blocks := blocks[current.value := TrimSpace(Join(buf))];
        }
        buf, current, found := [], heading, true;
      } else if current.Some? {
        buf := buf + [lines[i]];
      }
      i := i + 1;
    }
    assert lines[..i] == lines;
    if current.Some? {
      blocks := blocks[current.value := TrimSpace(Join(buf))];
    }
  }

  // ------------------------------------------------------------------ the printer

  const TITLE := "# MEMORY"
  const STAMP := "_Last organized: "

  function HeadingLine(block: Block): string { "## " + Name(block) }

  function SectionText(block: Block, content: string): string {
    HeadingLine(block) + "\n" + if content == "" then "" else content + "\n"
  }

  function Preamble(now: string): string { TITLE + "\n" + "\n" + (STAMP + now + "_") + "\n" + "\n" }

  /** The text before the i-th section. */
  function Printed(blocks: Blocks, now: string, i: nat): string
    requires i <= |ORDER|
  {
    if i == 0 then Preamble(now)
    else Printed(blocks, now, i - 1) + SectionText(ORDER[i - 1], TrimSpace(Get(blocks, ORDER[i - 1]))) + "\n"
  }

  function Render(blocks: Blocks, now: string): string { TrimSpace(Printed(blocks, now, |ORDER|)) + "\n" }

  lemma {:induction false} AppendSection(text: string, title: string, v: string)
    ensures text + title + "\n" + "\n" == text + (title + "\n" + "") + "\n"
    ensures text + title + "\n" + v + "\n" + "\n" == text + (title + "\n" + (v + "\n")) + "\n"
  {
    assert title + "\n" + "" == title + "\n";
    assert text + title + "\n" == text + (title + "\n");
    assert text + (title + "\n") + v + "\n" == text + (title + "\n" + (v + "\n"));
  }

  method RenderMemoryBlocks(blocks: Blocks, now: string) returns (text: string)
    ensures text == Render(blocks, now)
  {
    text := Preamble(now);
    var i := 0;
    while i < |ORDER|
      invariant 0 <= i <= |ORDER|
      invariant text == Printed(blocks, now, i)
    {
      var v := TrimSpace(Get(blocks, ORDER[i]));
      AppendSection(text, HeadingLine(ORDER[i]), v);
      text := text + HeadingLine(ORDER[i]) + "\n";
      if v != "" {
        text := text + v + "\n";
      }
      text := text + "\n";
      i := i + 1;
    }
    text := TrimSpace(text) + "\n";
  }

  // ------------------------------------------------------------------ parsing undoes printing

  lemma {:induction false} FeedAllConcat(p: Parse, a: seq<string>, b: seq<string>)
    ensures FeedAll(p, a + b) == FeedAll(FeedAll(p, a), b)
  {
    if b == [] {
      assert a + b == a;
    } else {
      var init, last := b[..|b| - 1], b[|b| - 1];
      assert b == init + [last];
      FeedAllConcat(p, a, init);
      FeedAllSnoc(p, a + init, last);
      FeedAllSnoc(FeedAll(p, a), init, last);
      assert a + init + [last] == a + b;
    }
  }

  lemma {:induction false} FeedAllSnoc(p: Parse, lines: seq<string>, line: string)
    ensures FeedAll(p, lines + [line]) == Feed(FeedAll(p, lines), line)
  {
    assert (lines + [line])[..|lines|] == lines;
  }

  lemma {:induction false} FeedPlain(p: Parse, lines: seq<string>)
    requires NoHeadings(lines)
    ensures FeedAll(p, lines) == if p.current.Some? then p.(buf := p.buf + lines) else p
  {
    if lines == [] {
      assert p.buf + lines == p.buf;
    } else {
      var init, last := lines[..|lines| - 1], lines[|lines| - 1];
      assert Heading(lines[|lines| - 1]).None?;
      assert forall i :: 0 <= i < |init| ==> init[i] == lines[i];
      FeedPlain(p, init);
      assert p.buf + init + [last] == p.buf + lines;
    }
  }

  predicate Letters(s: string) { s != "" && forall i :: 0 <= i < |s| ==> 'a' <= s[i] <= 'z' }

  lemma {:induction false} LowerFixes(s: string)
    requires forall i :: 0 <= i < |s| ==> 'a' <= s[i] <= 'z'
    ensures Lower(s) == s
  {
    if s != "" {
      LowerFixes(s[1..]);
      assert s == [s[0]] + s[1..];
    }
  }

  lemma {:induction false} DropMarks(name: string)
    requires Letters(name)
    ensures Tight("## " + name) && DropHashes("## " + name) == " " + name
  {
    var line := "## " + name;
    var one := line[1..];
    var two := one[1..];
    assert two == " " + name;
    assert DropHashes(two) == two;
    assert DropHashes(one) == two;
  }

  lemma {:induction false} HeadingOfLetters(name: string)
    requires Letters(name)
    ensures Tight("## " + name) && Heading("## " + name) == Lookup(name)
  {
    DropMarks(name);
    TrimmedTight("## " + name);
    TrimmedCons(' ', name);
    assert [' '] + name == " " + name;
    TrimmedTight(name);
    LowerFixes(name);
  }

  lemma {:induction false} NameIsLetters(block: Block)
    ensures Letters(Name(block)) && Lookup(Name(block)) == Some(block)
  {
  }

  lemma {:induction false} LettersOneLine(name: string)
    requires Letters(name)
    ensures OneLine("## " + name)
  {
    var line := "## " + name;
    assert forall i :: 3 <= i < |line| ==> line[i] == name[i - 3];
  }

  lemma {:induction false} HeadingOfName(block: Block)
    ensures Heading(HeadingLine(block)) == Some(block) && Tight(HeadingLine(block)) && OneLine(HeadingLine(block))
  {
    var name := Name(block);
    NameIsLetters(block);
    HeadingOfLetters(name);
    LettersOneLine(name);
  }

  function SectionLines(block: Block, content: string): seq<string> {
    [HeadingLine(block)] + (if content == "" then [] else Split(content)) + [""]
  }

  lemma {:induction false} SplitTitled(title: string, content: string)
    requires OneLine(title)
    ensures Split(title + "\n") == [title] + [""]
    ensures Split(title + "\n" + (content + "\n")) == [title] + Split(content) + [""]
  {
    SplitOneLine(title);
    SplitOneLine("");
    SplitConcat(title, "");
    assert title + "\n" + "" == title + "\n";
    SplitConcat(content, "");
    assert content + "\n" + "" == content + "\n";
    SplitConcat(title, content + "\n");
    assert [title] + (Split(content) + [""]) == [title] + Split(content) + [""];
  }

  lemma {:induction false} SplitSection(block: Block, content: string)
    ensures Split(SectionText(block, content)) == SectionLines(block, content)
  {
    HeadingOfName(block);
    SplitTitled(HeadingLine(block), content);
    assert HeadingLine(block) + "\n" + "" == HeadingLine(block) + "\n";
    assert [HeadingLine(block)] + [] + [""] == [HeadingLine(block)] + [""];
  }

  function Body(content: string): seq<string> { (if content == "" then [] else Split(content)) + [""] }

  lemma {:induction false} BodyJoins(content: string)
    requires content == "" || Tight(content)
    ensures TrimSpace(Join(Body(content))) == content
  {
    if content != "" {
      SplitConcat(content, "");
      SplitOneLine("");
      JoinSplit(content + "\n" + "");
      assert content + "\n" + "" == content + ['\n'];
      TrimmedSnoc(content, '\n');
      TrimmedTight(content);
    }
  }

  lemma {:induction false} FeedHeading(p: Parse, block: Block)
    ensures FeedAll(p, [HeadingLine(block)]) == Parse(Some(block), [], Flush(p).blocks, true)
  {
    HeadingOfName(block);
    assert [HeadingLine(block)][..0] == [];
    assert FeedAll(p, []) == p;
  }

  /** A section adds the block, whatever was open before, and leaves its own lines to be flushed. */
  lemma {:induction false} FeedSection(p: Parse, block: Block, content: string)
    requires NoHeadings(Split(content)) && (content == "" || Tight(content))
    ensures FeedAll(p, SectionLines(block, content)) == Parse(Some(block), Body(content), Flush(p).blocks, true)
  {
    assert SectionLines(block, content) == [HeadingLine(block)] + Body(content);
    FeedAllConcat(p, [HeadingLine(block)], Body(content));
    FeedHeading(p, block);
    assert Heading("").None?;
    FeedPlain(FeedAll(p, [HeadingLine(block)]), Body(content));
    assert [] + Body(content) == Body(content);
  }

  // ------------------------------------------------------------------ the printed text, line by line

  function PreambleLines(now: string): seq<string> { [TITLE, "", STAMP + now + "_", ""] }

  function SectionOf(blocks: Blocks, block: Block): seq<string> { SectionLines(block, TrimSpace(Get(blocks, block))) }

  /** The lines before the i-th section. */
  function PrintedLines(blocks: Blocks, now: string, i: nat): seq<string>
    requires i <= |ORDER|
  {
    if i == 0 then PreambleLines(now) else PrintedLines(blocks, now, i - 1) + SectionOf(blocks, ORDER[i - 1])
  }

  lemma {:induction false} SplitLine(before: string, line: string)
    requires OneLine(line)
    ensures Split(before + "\n" + line) == Split(before) + [line]
  {
    SplitOneLine(line);
    SplitConcat(before, line);
  }

  lemma {:induction false} SplitBreak(before: string)
    ensures Split(before + "\n") == Split(before) + [""]
  {
    SplitLine(before, "");
    assert before + "\n" + "" == before + "\n";
  }

  lemma {:induction false} PreambleSplits(now: string)
    requires OneLine(now)
    ensures Split(Preamble(now)) == PreambleLines(now) + [""]
  {
    var stamp := STAMP + now + "_";
    var top := TITLE + "\n";
    SplitOneLine(TITLE);
    SplitBreak(TITLE);
    SplitLine(top, stamp);
    SplitBreak(top + "\n" + stamp);
    SplitBreak(top + "\n" + stamp + "\n");
  }

  lemma {:induction false} PrintedSplits(blocks: Blocks, now: string, i: nat)
    requires OneLine(now) && i <= |ORDER|
    ensures Split(Printed(blocks, now, i)) == PrintedLines(blocks, now, i) + [""]
    ensures Printed(blocks, now, i) != "" && Printed(blocks, now, i)[|Printed(blocks, now, i)| - 1] == '\n'
  {
    if i == 0 {
      PreambleSplits(now);
    } else {
      PrintedSplits(blocks, now, i - 1);
      var before := Printed(blocks, now, i - 1);
      var section := SectionText(ORDER[i - 1], TrimSpace(Get(blocks, ORDER[i - 1])));
      SplitSection(ORDER[i - 1], TrimSpace(Get(blocks, ORDER[i - 1])));
      SplitAfterBreak(before, section);
      SplitConcat(before + section, "");
      SplitOneLine("");
      assert before + section + "\n" + "" == before + section + "\n";
    }
  }

  /** Text that ends in a line break splits off what follows. */
  lemma {:induction false} SplitAfterBreak(before: string, text: string)
    requires before != "" && before[|before| - 1] == '\n'
    ensures Split(before + text) + [""] == Split(before)[..|Split(before)| - 1] + Split(text) + [""]
    ensures Split(before)[|Split(before)| - 1] == ""
  {
    var init := before[..|before| - 1];
    assert before == init + "\n" + "" && before + text == init + "\n" + text;
    SplitConcat(init, "");
    SplitConcat(init, text);
    SplitOneLine("");
  }

  lemma {:induction false} SectionEnds(block: Block, content: string)
    requires content == "" || Tight(content)
    ensures var text := SectionText(block, content);
            |text| >= 2 && text[|text| - 1] == '\n' && !IsSpace(text[|text| - 2])
  {
    HeadingOfName(block);
  }

  lemma {:induction false} PrintedStarts(blocks: Blocks, now: string, i: nat)
    requires i <= |ORDER|
    ensures Printed(blocks, now, i) != "" && Printed(blocks, now, i)[0] == '#'
  {
    if i > 0 {
      PrintedStarts(blocks, now, i - 1);
    }
  }

  lemma {:induction false} TrimSection(before: string, section: string)
    requires before != "" && before[0] == '#'
    requires |section| >= 2 && section[|section| - 1] == '\n' && !IsSpace(section[|section| - 2])
    ensures var text := before + section + "\n";
            text == TrimSpace(text) + "\n" + "\n"
  {
    var init := section[..|section| - 1];
    assert section == init + "\n";
    TrimTwoBreaks(before + init);
    assert before + section + "\n" == before + init + "\n" + "\n";
  }

  /** Trimming the printed text takes away exactly the two line breaks at its end. */
  lemma {:induction false} RenderTrims(blocks: Blocks, now: string)
    ensures Printed(blocks, now, |ORDER|) == TrimSpace(Printed(blocks, now, |ORDER|)) + "\n" + "\n"
  {
    TrimmedTight(Get(blocks, Facts));
    SectionEnds(Facts, TrimSpace(Get(blocks, Facts)));
    PrintedStarts(blocks, now, 3);
    TrimSection(Printed(blocks, now, 3), SectionText(Facts, TrimSpace(Get(blocks, Facts))));
  }

  lemma {:induction false} TrimTwoBreaks(text: string)
    requires Tight(text)
    ensures TrimSpace(text + "\n" + "\n") == text
  {
    TrimmedSnoc(text + "\n", '\n');
    TrimmedSnoc(text, '\n');
    TrimmedTight(text);
    assert text + "\n" + "\n" == text + "\n" + ['\n'];
  }

  lemma {:induction false} RenderSplits(blocks: Blocks, now: string)
    requires OneLine(now)
    ensures Split(Render(blocks, now)) == PrintedLines(blocks, now, |ORDER|)
  {
    PrintedSplits(blocks, now, |ORDER|);
    RenderTrims(blocks, now);
    var text := Render(blocks, now);
    SplitConcat(text, "");
    SplitOneLine("");
    assert text + "\n" + "" == text + "\n";
    assert Split(text) + [""] == PrintedLines(blocks, now, |ORDER|) + [""];
    assert (Split(text) + [""])[..|Split(text)|] == Split(text);
  }

  /** What has been parsed before the i-th section, with the block then open closed. */
  function ParsedBefore(blocks: Blocks, now: string, i: nat): Blocks
    requires i <= |ORDER|
  {
    Flush(FeedAll(START, PrintedLines(blocks, now, i))).blocks
  }

  predicate Clean(blocks: Blocks, block: Block) { NoHeadings(Split(TrimSpace(Get(blocks, block)))) }

  /** A clean section sets its block to its content and no other. */
  lemma {:induction false} SectionParses(blocks: Blocks, now: string, i: nat)
    requires i < |ORDER| && Clean(blocks, ORDER[i])
    ensures ParsedBefore(blocks, now, i + 1) ==
            ParsedBefore(blocks, now, i)[ORDER[i] := TrimSpace(Get(blocks, ORDER[i]))]
  {
    var content := TrimSpace(Get(blocks, ORDER[i]));
    var p := FeedAll(START, PrintedLines(blocks, now, i));
    TrimmedTight(Get(blocks, ORDER[i]));
    FeedAllConcat(START, PrintedLines(blocks, now, i), SectionOf(blocks, ORDER[i]));
    FeedSection(p, ORDER[i], content);
    BodyJoins(content);
  }

  predicate ReadsBack(blocks: Blocks, parsed: Blocks, block: Block) {
    block in parsed && parsed[block] == TrimSpace(Get(blocks, block))
  }

  lemma {:induction false} OrderIsDistinct(j: nat, i: nat)
    requires j < i < |ORDER|
    ensures ORDER[j] != ORDER[i]
  {
  }

  lemma {:induction false} ReadsBackAfter(blocks: Blocks, before: Blocks, block: Block, other: Block, content: string)
    requires other == block ==> content == TrimSpace(Get(blocks, block))
    requires other != block ==> ReadsBack(blocks, before, block)
    ensures ReadsBack(blocks, before[other := content], block)
  {
  }

  lemma {:induction false} SectionKeeps(
      blocks: Blocks, now: string, block: Block, i: nat, before: Blocks, after: Blocks)
    requires i < |ORDER| && Clean(blocks, ORDER[i])
    requires before == ParsedBefore(blocks, now, i) && after == ParsedBefore(blocks, now, i + 1)
    requires ORDER[i] == block || ReadsBack(blocks, before, block)
    ensures ReadsBack(blocks, after, block)
  {
    SectionParses(blocks, now, i);
    ReadsBackAfter(blocks, before, block, ORDER[i], TrimSpace(Get(blocks, ORDER[i])));
  }

  /** A block is read back when it and the blocks behind it are clean. */
  lemma {:induction false} SectionStays(blocks: Blocks, now: string, j: nat, i: nat, block: Block, parsed: Blocks)
    requires j < i <= |ORDER| && block == ORDER[j] && parsed == ParsedBefore(blocks, now, i)
    requires forall k :: j <= k < i ==> Clean(blocks, ORDER[k])
    ensures ReadsBack(blocks, parsed, block)
  {
    var before := ParsedBefore(blocks, now, i - 1);
    if j < i - 1 {
      SectionStays(blocks, now, j, i - 1, block, before);
    }
    SectionKeeps(blocks, now, block, i - 1, before, parsed);
  }

  /** The writable blocks come last, so they are read back whatever the read-only ones contain. */
  lemma {:induction false} WritableReadBack(blocks: Blocks, now: string)
    requires OneLine(now) && Clean(blocks, Projects) && Clean(blocks, Facts)
    ensures var parsed := ParseBlocks(Render(blocks, now)).blocks;
            ReadsBack(blocks, parsed, Projects) && ReadsBack(blocks, parsed, Facts)
  {
    RenderSplits(blocks, now);
    SectionStays(blocks, now, 2, 4, Projects, ParsedBefore(blocks, now, 4));
    SectionStays(blocks, now, 3, 4, Facts, ParsedBefore(blocks, now, 4));
  }

  ghost predicate AllReadBack(blocks: Blocks, parsed: Blocks) { forall block :: ReadsBack(blocks, parsed, block) }

  ghost predicate AllClean(blocks: Blocks) { forall block :: Clean(blocks, block) }

  lemma {:induction false} CleanReadsBack(blocks: Blocks, now: string, block: Block)
    requires OneLine(now) && AllClean(blocks)
    ensures ReadsBack(blocks, ParseBlocks(Render(blocks, now)).blocks, block)
  {
    RenderSplits(blocks, now);
    var j := match block case Persona => 0 case Human => 1 case Projects => 2 case Facts => 3;
    SectionStays(blocks, now, j, 4, block, ParsedBefore(blocks, now, 4));
  }

  /** Parsing undoes printing exactly when no content line is itself the heading of a block. */
  lemma {:induction false} RoundTripIff(blocks: Blocks, now: string)
    requires OneLine(now)
    ensures AllReadBack(blocks, ParseBlocks(Render(blocks, now)).blocks) <==> AllClean(blocks)
  {
    var parsed := ParseBlocks(Render(blocks, now)).blocks;
    if AllClean(blocks) {
      forall block ensures ReadsBack(blocks, parsed, block) {
        CleanReadsBack(blocks, now, block);
      }
    }
    if AllReadBack(blocks, parsed) {
      forall block ensures Clean(blocks, block) {
        assert ReadsBack(blocks, parsed, block);
        ParsedIsClean(Render(blocks, now), block);
      }
    }
  }

  // ------------------------------------------------------------------ what is parsed contains no headings

  ghost predicate CleanParse(p: Parse) {
    && NoHeadings(p.buf) && OneLiners(p.buf)
    && forall block :: block in p.blocks ==> NoHeadings(Split(p.blocks[block]))
  }

  /** Adding white space at the end of a text makes no line a heading and none that was one another. */
  lemma {:induction false} SuffixClean(lines: seq<string>, c: char)
    requires lines != [] && IsSpace(c) && NoHeadings(Suffix(lines, c))
    ensures NoHeadings(lines)
  {
    var longer := Suffix(lines, c);
    TrimmedSnoc(lines[|lines| - 1], c);
    forall i | 0 <= i < |lines| ensures Heading(lines[i]).None? {
      assert Heading(longer[i]).None?;
    }
  }

  lemma {:induction false} PrefixClean(lines: seq<string>, c: char)
    requires lines != [] && IsSpace(c) && NoHeadings(Prefix(c, lines))
    ensures NoHeadings(lines)
  {
    var longer := Prefix(c, lines);
    TrimmedCons(c, lines[0]);
    forall i | 0 <= i < |lines| ensures Heading(lines[i]).None? {
      assert Heading(longer[if c == '\n' then i + 1 else i]).None?;
    }
  }

  lemma {:induction false} SplitKeepsClean(s: string)
    requires NoHeadings(Split(s))
    ensures NoHeadings(Split(TrimSpace(s)))
    decreases |s|
  {
    if s != "" && IsSpace(s[|s| - 1]) {
      var init, last := s[..|s| - 1], s[|s| - 1];
      assert s == init + [last];
      SplitSnoc(init, last);
      SuffixClean(Split(init), last);
      SplitKeepsClean(init);
    } else if s != "" && IsSpace(s[0]) {
      PrefixClean(Split(s[1..]), s[0]);
      SplitKeepsClean(s[1..]);
    }
  }

  lemma {:induction false} FlushClean(p: Parse)
    requires CleanParse(p)
    ensures CleanParse(Flush(p))
  {
    if p.buf == [] {
      TrimmedTight("");
      SplitOneLine("");
      assert Heading("").None?;
    } else {
      SplitJoin(p.buf);
      SplitKeepsClean(Join(p.buf));
    }
  }

  lemma {:induction false} FeedAllClean(lines: seq<string>)
    requires OneLiners(lines)
    ensures CleanParse(FeedAll(START, lines))
  {
    if lines != [] {
      var init := lines[..|lines| - 1];
      assert forall i :: 0 <= i < |init| ==> init[i] == lines[i];
      FeedAllClean(init);
      FlushClean(FeedAll(START, init));
    }
  }

  lemma {:induction false} ParsedIsClean(content: string, block: Block)
    requires block in ParseBlocks(content).blocks
    ensures NoHeadings(Split(ParseBlocks(content).blocks[block]))
  {
    SplitOneLiners(content);
    FeedAllClean(Split(content));
    FlushClean(FeedAll(START, Split(content)));
  }

  // ------------------------------------------------------------------ trailing line breaks

  lemma {:induction false} JoinSnocEmpty(lines: seq<string>)
    requires lines != []
    ensures Join(lines + [""]) == Join(lines) + "\n"
  {
    if |lines| == 1 {
      assert (lines + [""])[1..] == [""];
      assert lines[0] + "\n" + "" == lines[0] + "\n";
    } else {
      JoinSnocEmpty(lines[1..]);
      assert (lines + [""])[1..] == lines[1..] + [""];
      assert lines[0] + "\n" + (Join(lines[1..]) + "\n") == lines[0] + "\n" + Join(lines[1..]) + "\n";
    }
  }

  lemma {:induction false} FlushIgnoresBlank(p: Parse)
    ensures Flush(Feed(p, "")).blocks == Flush(p).blocks && Flush(Feed(p, "")).found == p.found
  {
    assert Heading("").None?;
    if p.current.Some? {
      if p.buf == [] {
        assert p.buf + [""] == [""];
      } else {
        JoinSnocEmpty(p.buf);
        assert Join(p.buf) + "\n" == Join(p.buf) + ['\n'];
        TrimmedSnoc(Join(p.buf), '\n');
      }
    }
  }

  lemma {:induction false} TrailingBreak(content: string)
    ensures ParseBlocks(content + "\n").blocks == ParseBlocks(content).blocks
    ensures ParseBlocks(content + "\n").found == ParseBlocks(content).found
  {
    SplitBreak(content);
    FeedAllSnoc(START, Split(content), "");
    FlushIgnoresBlank(FeedAll(START, Split(content)));
  }

  lemma {:induction false} FoundWhenParsed(lines: seq<string>, block: Block)
    ensures var p := FeedAll(START, lines);
            p.current.Some? || block in p.blocks ==> p.found
  {
    if lines != [] {
      FoundWhenParsed(lines[..|lines| - 1], block);
    }
  }
}
