/**
 The entries of a memory block and the write-back (pkg/agent/memory_blocks.go, memory.go): entries
 are extracted line by line, merged without repeats, clipped to the block's limit from the newest
 on, and printed as a list.
 */
module MemoryWriteback {
  import opened Text
  import opened Lines
  import opened MemoryBlocks
  import opened Wrappers

  // ------------------------------------------------------------------ extracting

  /** The entry of a line; blank lines and headings have none. */
  function EntryOf(raw: string): string {
    var line := TrimSpace(raw);
    if line == "" || line[0] == '#' then "" else Compact(TrimSpace(DropBullets(line)))
  }

  function EntriesOf(lines: seq<string>): seq<string> {
    if lines == [] then []
    else
      EntriesOf(lines[..|lines| - 1]) + if EntryOf(lines[|lines| - 1]) == "" then [] else [EntryOf(lines[|lines| - 1])]
  }

  function Extract(content: string): seq<string> {
    if TrimSpace(content) == "" then [] else EntriesOf(Split(TrimSpace(content)))
  }

  method ExtractBlockEntries(content: string) returns (out: seq<string>)
    ensures out == Extract(content)
  {
    out := [];
    var text := TrimSpace(content);
    if text == "" {
      return;
    }
    var lines, i := Split(text), 0;
    while i < |lines|
      invariant 0 <= i <= |lines| && out == EntriesOf(lines[..i])
    {
      assert lines[..i + 1][..i] == lines[..i];
      var line := TrimSpace(lines[i]);
      i := i + 1;
      if line == "" || line[0] == '#' {
        continue;
      }
      line := Compact(TrimSpace(DropBullets(line)));
      if line == "" {
        continue;
      }
      out := out + [line];
    }
    assert lines[..i] == lines;
  }

  predicate AllNeat(entries: seq<string>) { forall i :: 0 <= i < |entries| ==> Neat(entries[i]) }

  lemma {:induction false} EntriesNeat(lines: seq<string>)
    ensures AllNeat(EntriesOf(lines))
  {
    if lines != [] {
      EntriesNeat(lines[..|lines| - 1]);
      CompactNeat(TrimSpace(DropBullets(TrimSpace(lines[|lines| - 1]))));
    }
  }

  /** Every extracted entry is one line, tight and with single spaces. */
  lemma {:induction false} ExtractNeat(content: string)
    ensures AllNeat(Extract(content))
  {
    EntriesNeat(Split(TrimSpace(content)));
  }

  // ------------------------------------------------------------------ merging

  predicate HasKey(entries: seq<string>, key: string) { exists i :: 0 <= i < |entries| && Lower(entries[i]) == key }

  /** The first entry of each key, ignoring case. */
  function Dedup(entries: seq<string>): seq<string> {
    if entries == [] then []
    else
      var before, entry := Dedup(entries[..|entries| - 1]), TrimSpace(entries[|entries| - 1]);
      if entry == "" || HasKey(before, Lower(entry)) then before else before + [entry]
  }

  function Merge(base: string, incoming: string): seq<string> { Dedup(Extract(base) + Extract(incoming)) }

  method MergeBlockEntries(base: string, incoming: string) returns (out: seq<string>)
    ensures out == Merge(base, incoming)
  {
    var baseEntries := ExtractBlockEntries(base);
    var inEntries := ExtractBlockEntries(incoming);
    var all := baseEntries + inEntries;
    var seen: set<string>, i := {}, 0;
    out := [];
    while i < |all|
      invariant 0 <= i <= |all| && out == Dedup(all[..i])
      invariant forall key :: key in seen <==> HasKey(out, key)
    {
      DedupUpTo(all, i);
      var entry := TrimSpace(all[i]);
      i := i + 1;
      if entry == "" {
        continue;
      }
      var key := Lower(entry);
      if key in seen {
        continue;
      }
      HasKeySnoc(out, entry);
      seen := seen + {key};
      out := out + [entry];
    }
    assert all[..i] == all;
  }

  lemma {:induction false} DedupUpTo(all: seq<string>, i: nat)
    requires i < |all|
    ensures var before, entry := Dedup(all[..i]), TrimSpace(all[i]);
            Dedup(all[..i + 1]) == if entry == "" || HasKey(before, Lower(entry)) then before else before + [entry]
  {
    assert all[..i + 1][..i] == all[..i];
  }

  lemma {:induction false} HasKeySnoc(entries: seq<string>, entry: string)
    ensures forall key :: HasKey(entries + [entry], key) <==> HasKey(entries, key) || key == Lower(entry)
  {
    var longer := entries + [entry];
    forall key ensures HasKey(longer, key) <==> HasKey(entries, key) || key == Lower(entry) {
      if HasKey(entries, key) {
        var i :| 0 <= i < |entries| && Lower(entries[i]) == key;
        assert Lower(longer[i]) == key;
      }
      if key == Lower(entry) {
        assert Lower(longer[|entries|]) == key;
      }
    }
  }

  predicate Distinct(entries: seq<string>) {
    forall i, j :: 0 <= i < j < |entries| ==> Lower(entries[i]) != Lower(entries[j])
  }

  /** Merging keeps every key. */
  lemma {:induction false} DedupKeys(entries: seq<string>, key: string)
    requires AllNeat(entries)
    ensures HasKey(Dedup(entries), key) <==> HasKey(entries, key)
  {
    if entries != [] {
      var init, last := entries[..|entries| - 1], entries[|entries| - 1];
      assert entries == init + [last];
      DedupKeys(init, key);
      DedupSnoc(init, last);
      HasKeySnoc(init, last);
      HasKeySnoc(Dedup(init), last);
    }
  }

  /** Merging keeps one entry for each key. */
  lemma {:induction false} DedupDistinct(entries: seq<string>)
    requires AllNeat(entries)
    ensures AllNeat(Dedup(entries)) && Distinct(Dedup(entries))
  {
    if entries != [] {
      var init, last := entries[..|entries| - 1], entries[|entries| - 1];
      assert entries == init + [last];
      DedupDistinct(init);
      DedupSnoc(init, last);
      if !HasKey(Dedup(init), Lower(last)) {
        DistinctSnoc(Dedup(init), last);
      }
    }
  }

  /** Merging adds nothing and keeps the order. */
  lemma {:induction false} DedupSubseq(entries: seq<string>)
    requires AllNeat(entries)
    ensures Subseq(Dedup(entries), entries)
  {
    if entries != [] {
      var init, last := entries[..|entries| - 1], entries[|entries| - 1];
      assert entries == init + [last];
      DedupSubseq(init);
      DedupSnoc(init, last);
      if HasKey(Dedup(init), Lower(last)) {
        SubseqPad(Dedup(init), [], init, [last]);
        assert [] + init + [last] == entries;
      } else {
        SubseqRefl([last]);
        SubseqConcat(Dedup(init), init, [last], [last]);
      }
    }
  }

  lemma {:induction false} DistinctSnoc(entries: seq<string>, last: string)
    requires Distinct(entries) && !HasKey(entries, Lower(last))
    ensures Distinct(entries + [last])
  {
  }

  lemma {:induction false} DistinctInit(init: seq<string>, last: string)
    requires Distinct(init + [last])
    ensures Distinct(init) && !HasKey(init, Lower(last))
  {
    var all := init + [last];
    forall i, j | 0 <= i < j < |init| ensures Lower(init[i]) != Lower(init[j]) {
      assert Lower(all[i]) != Lower(all[j]);
    }
    forall i | 0 <= i < |init| ensures Lower(init[i]) != Lower(last) {
      assert Lower(all[i]) != Lower(all[|init|]);
    }
  }

  lemma {:induction false} DedupSnoc(init: seq<string>, last: string)
    requires Neat(last)
    ensures Dedup(init + [last]) == if HasKey(Dedup(init), Lower(last)) then Dedup(init) else Dedup(init) + [last]
  {
    CompactNeat(last);
    assert (init + [last])[..|init|] == init;
  }

  /** Nothing is dropped from entries that are already distinct. */
  lemma {:induction false} DedupFixes(entries: seq<string>)
    requires AllNeat(entries) && Distinct(entries)
    ensures Dedup(entries) == entries
  {
    if entries != [] {
      var init, last := entries[..|entries| - 1], entries[|entries| - 1];
      assert entries == init + [last];
      DistinctInit(init, last);
      DedupFixes(init);
      DedupSnoc(init, last);
    }
  }

  /** What was there comes first; new entries only follow. */
  lemma {:induction false} MergeKeepsBase(base: seq<string>, incoming: seq<string>)
    ensures Dedup(base) <= Dedup(base + incoming)
  {
    if incoming == [] {
      assert base + incoming == base;
    } else {
      MergeKeepsBase(base, incoming[..|incoming| - 1]);
      assert (base + incoming)[..|base + incoming| - 1] == base + incoming[..|incoming| - 1];
    }
  }

  // ------------------------------------------------------------------ clipping

  function TruncateRunes(s: string, limit: int): string {
    if limit <= 0 then "" else if |s| <= limit then s else TrimSpace(s[..limit])
  }

  function Max(a: int, b: int): int { if a < b then b else a }

  /** The newest of the first i entries that fit behind what is used. */
  function Newest(entries: seq<string>, i: nat, limit: int, used: int): seq<string>
    requires i <= |entries|
  {
    if i == 0 then []
    else
      var entry := TrimSpace(entries[i - 1]);
      if entry == "" then Newest(entries, i - 1, limit, used)
      else if used + |entry| + 3 > limit then []
      else Newest(entries, i - 1, limit, used + |entry| + 3) + [entry]
  }

  function LastEntry(entries: seq<string>, i: nat): string
    requires i <= |entries|
  {
    if i == 0 then ""
    else if TrimSpace(entries[i - 1]) == "" then LastEntry(entries, i - 1)
    else TrimSpace(entries[i - 1])
  }

  function Clip(entries: seq<string>, limit: int): seq<string> {
    if limit <= 0 then entries
    else
      var kept, last := Newest(entries, |entries|, limit, 0), LastEntry(entries, |entries|);
      if kept == [] && last != "" then [TruncateRunes(last, Max(1, limit - 3))] else kept
  }

  function Reversed(s: seq<string>): seq<string> { if s == [] then [] else Reversed(s[1..]) + [s[0]] }

  method ClipEntriesToLimit(entries: seq<string>, limit: int) returns (selected: seq<string>)
    ensures selected == Clip(entries, limit)
  {
    if limit <= 0 || |entries| == 0 {
      return entries;
    }
    var selectedRev: seq<string>, used := [], 0;
    ghost var kept: seq<string> := [];
    var i := |entries|;
    while i > 0
      invariant 0 <= i <= |entries| && 0 <= used <= limit && (selectedRev == [] ==> used == 0)
      invariant kept == Reversed(selectedRev) && |kept| == |selectedRev|
      invariant Newest(entries, |entries|, limit, 0) == Newest(entries, i, limit, used) + kept
      invariant selectedRev == [] ==> LastEntry(entries, |entries|) == LastEntry(entries, i)
    {
      var entry := TrimSpace(entries[i - 1]);
      var entryLen := |entry| + 3;
      NewestStep(entries, i, limit, used, used + entryLen, kept);
      i := i - 1;
      if entry == "" {
        continue;
      }
      if used + entryLen > limit {
        if |selectedRev| == 0 {
          selectedRev := [TruncateRunes(entry, Max(1, limit - 3))];
          kept := selectedRev;
          ReversedEmpty(selectedRev);
        }
        break;
      }
      ReversedSnoc(selectedRev, entry);
      kept := [entry] + kept;
      selectedRev := selectedRev + [entry];
      used := used + entryLen;
    }
    selected := ReverseInPlace(selectedRev);
  }

  lemma {:induction false} ReversedEmpty(s: seq<string>)
    ensures |Reversed(s)| == |s| && (|s| == 1 ==> Reversed(s) == s)
  {
    if s != [] {
      ReversedEmpty(s[1..]);
    }
  }

  /** One step of the loop, seen from its end. */
  lemma {:induction false} NewestStep(
      entries: seq<string>, i: nat, limit: int, used: int, used': int, behind: seq<string>)
    requires 0 < i <= |entries| && used' == used + |TrimSpace(entries[i - 1])| + 3
    ensures var entry := TrimSpace(entries[i - 1]);
            Newest(entries, i, limit, used) + behind ==
              if entry == "" then Newest(entries, i - 1, limit, used) + behind
              else if used' > limit then behind
              else Newest(entries, i - 1, limit, used') + ([entry] + behind)
  {
    var before, entry := Newest(entries, i - 1, limit, used'), TrimSpace(entries[i - 1]);
    assert before + [entry] + behind == before + ([entry] + behind);
    assert [] + behind == behind;
  }

  lemma {:induction false} ReversedSnoc(s: seq<string>, x: string)
    ensures Reversed(s + [x]) == [x] + Reversed(s)
  {
    if s == [] {
      assert s + [x] == [x];
    } else {
      assert (s + [x])[1..] == s[1..] + [x];
      ReversedSnoc(s[1..], x);
    }
  }

  method ReverseInPlace(s: seq<string>) returns (r: seq<string>)
    ensures r == Reversed(s)
  {
    r := s;
    var i, j := 0, |s| - 1;
    while i < j
      invariant 0 <= i <= |s| && j == |s| - 1 - i && |r| == |s|
      invariant forall k :: 0 <= k < i ==> r[k] == s[|s| - 1 - k] && r[|s| - 1 - k] == s[k]
      invariant forall k :: i <= k <= j ==> r[k] == s[k]
    {
      r := r[i := r[j]][j := r[i]];
      i, j := i + 1, j - 1;
    }
    ReversedBy(s, r);
  }

  lemma {:induction false} ReversedBy(s: seq<string>, r: seq<string>)
    requires |r| == |s| && forall k :: 0 <= k < |s| ==> r[k] == s[|s| - 1 - k]
    ensures r == Reversed(s)
  {
    if s != [] {
      ReversedBy(s[1..], r[..|r| - 1]);
      assert r == r[..|r| - 1] + [r[|r| - 1]];
    }
  }

  /** The room that entries take as list items. */
  function Cost(entries: seq<string>): nat {
    if entries == [] then 0 else Cost(entries[..|entries| - 1]) + |entries[|entries| - 1]| + 3
  }

  lemma {:induction false} CostSnoc(entries: seq<string>, entry: string)
    ensures Cost(entries + [entry]) == Cost(entries) + |entry| + 3
  {
    assert (entries + [entry])[..|entries|] == entries;
  }

  /** The entries from k on fit, and with the one before they would not. */
  predicate FitsFrom(entries: seq<string>, k: nat, i: nat, room: int)
    requires k <= i <= |entries|
  {
    Cost(entries[k..i]) <= room && (k == 0 || Cost(entries[k - 1..i]) > room)
  }

  lemma {:induction false} FitsFromSnoc(entries: seq<string>, k: nat, i: nat, room: int, room': int)
    requires k < i <= |entries| && room' == room - |entries[i - 1]| - 3
    ensures entries[k..i] == entries[k..i - 1] + [entries[i - 1]]
    ensures FitsFrom(entries, k, i, room) <==> FitsFrom(entries, k, i - 1, room')
  {
    assert entries[k..i] == entries[k..i - 1] + [entries[i - 1]];
    CostSnoc(entries[k..i - 1], entries[i - 1]);
    if k > 0 {
      assert entries[k - 1..i] == entries[k - 1..i - 1] + [entries[i - 1]];
      CostSnoc(entries[k - 1..i - 1], entries[i - 1]);
    }
  }

  lemma {:induction false} NothingFits(entries: seq<string>, i: nat, room: int)
    requires i <= |entries| && room >= 0 && (i > 0 ==> |entries[i - 1]| + 3 > room)
    ensures FitsFrom(entries, i, i, room) && entries[i..i] == []
  {
    if i > 0 {
      CostSnoc([], entries[i - 1]);
      assert entries[i - 1..i] == [] + [entries[i - 1]];
    }
  }

  lemma {:induction false} NewestFits(entries: seq<string>, i: nat, limit: int, used: int, room: int) returns (k: nat)
    requires i <= |entries| && AllNeat(entries) && room == limit - used >= 0
    ensures k <= i && Newest(entries, i, limit, used) == entries[k..i] && FitsFrom(entries, k, i, room)
  {
    if i > 0 {
      CompactNeat(entries[i - 1]);
    }
    if i > 0 && |entries[i - 1]| + 3 <= room {
      var room' := room - |entries[i - 1]| - 3;
      k := NewestFits(entries, i - 1, limit, used + |entries[i - 1]| + 3, room');
      FitsFromSnoc(entries, k, i, room, room');
    } else {
      k := i;
      NothingFits(entries, i, room);
    }
  }

  /**
   Clipping keeps the newest entries that fit, as many as fit; when not even the newest does, it keeps
   the beginning of that one. The result fits in any case.
   */
  lemma {:induction false} ClipKeepsNewest(entries: seq<string>, limit: int) returns (k: nat)
    requires AllNeat(entries) && limit >= 4
    ensures k <= |entries| && FitsFrom(entries, k, |entries|, limit)
    ensures Clip(entries, limit) == if k < |entries| || entries == [] then entries[k..]
                                    else [TruncateRunes(entries[|entries| - 1], limit - 3)]
    ensures AllNeat(Clip(entries, limit)) && Cost(Clip(entries, limit)) <= limit
  {
    var n := |entries|;
    k := NewestFits(entries, n, limit, 0, limit);
    assert entries[k..n] == entries[k..];
    if n > 0 {
      CompactNeat(entries[n - 1]);
      if k == n {
        assert entries[n - 1..n] == [] + [entries[n - 1]];
        CostSnoc([], entries[n - 1]);
        OversizedFits(entries[n - 1], limit);
      }
    }
  }

  lemma {:induction false} OversizedFits(entry: string, limit: int)
    requires Neat(entry) && limit >= 4 && |entry| + 3 > limit
    ensures var cut := [TruncateRunes(entry, limit - 3)];
            AllNeat(cut) && Cost(cut) <= limit
  {
    PrefixNeat(entry, limit - 3);
    CostSnoc([], TruncateRunes(entry, limit - 3));
    assert [] + [TruncateRunes(entry, limit - 3)] == [TruncateRunes(entry, limit - 3)];
  }

  /** Entries that fit are not clipped. */
  lemma {:induction false} ClipFixes(entries: seq<string>, limit: int)
    requires AllNeat(entries) && limit >= 4 && Cost(entries) <= limit
    ensures Clip(entries, limit) == entries
  {
    var k := ClipKeepsNewest(entries, limit);
    assert entries[0..] == entries;
    if k > 0 {
      CostGrows(entries, k - 1);
    }
  }

  lemma {:induction false} CostGrows(entries: seq<string>, k: nat)
    requires k <= |entries|
    ensures Cost(entries[k..|entries|]) <= Cost(entries)
  {
    if k < |entries| {
      var init, last := entries[..|entries| - 1], entries[|entries| - 1];
      CostGrows(init, k);
      CostSnoc(init[k..|init|], last);
      assert entries[k..|entries|] == init[k..|init|] + [last];
      CostSnoc(init, last);
      assert entries == init + [last];
    }
  }

  // ------------------------------------------------------------------ printing entries

  function Bullet(entry: string): string { "- " + entry }

  function EntriesText(entries: seq<string>): string {
    if entries == [] then ""
    else
      var before, entry := EntriesText(entries[..|entries| - 1]), TrimSpace(entries[|entries| - 1]);
      if entry == "" then before else before + Bullet(entry) + "\n"
  }

  function RenderEntries(entries: seq<string>): string { TrimSpace(EntriesText(entries)) }

  method RenderEntryList(entries: seq<string>) returns (text: string)
    ensures text == RenderEntries(entries)
  {
    text := "";
    var i := 0;
    while i < |entries|
      invariant 0 <= i <= |entries| && text == EntriesText(entries[..i])
    {
      assert entries[..i + 1][..i] == entries[..i];
      var entry := TrimSpace(entries[i]);
      i := i + 1;
      if entry == "" {
        continue;
      }
      text := text + Bullet(entry) + "\n";
    }
    assert entries[..i] == entries;
    text := TrimSpace(text);
  }

  function Bullets(entries: seq<string>): seq<string> {
    if entries == [] then [] else Bullets(entries[..|entries| - 1]) + [Bullet(entries[|entries| - 1])]
  }

  lemma {:induction false} BulletTight(entry: string)
    requires Neat(entry)
    ensures Tight(Bullet(entry)) && OneLine(Bullet(entry)) && TrimSpace(Bullet(entry)) == Bullet(entry)
    ensures Heading(Bullet(entry)).None?
  {
    var line := Bullet(entry);
    CompactNeat(entry);
    DashedTight(line, entry);
    TrimmedTight(line);
    assert line[0] == '-';
  }

  lemma {:induction false} DashedTight(line: string, entry: string)
    requires line == "- " + entry && Tight(entry) && OneLine(entry)
    ensures Tight(line) && OneLine(line)
  {
    assert forall i :: 0 <= i < |entry| ==> line[i + 2] == entry[i];
  }

  lemma {:induction false} BulletRead(entry: string)
    requires Neat(entry)
    ensures EntryOf(Bullet(entry)) == entry
  {
    var line, rest := Bullet(entry), " " + entry;
    BulletTight(entry);
    CompactNeat(entry);
    assert line[1..] == rest && line[0] == '-';
    assert DropBullets(rest) == rest;
    TrimmedCons(' ', entry);
    assert [' '] + entry == rest;
  }

  /** The text of neat entries is their list, one item a line, and a line break. */
  lemma {:induction false} EntriesSplit(entries: seq<string>)
    requires AllNeat(entries) && entries != []
    ensures RenderEntries(entries) + "\n" == EntriesText(entries) && Tight(RenderEntries(entries))
    ensures Split(RenderEntries(entries)) == Bullets(entries)
    ensures |RenderEntries(entries)| < Cost(entries)
  {
    var init, last := entries[..|entries| - 1], entries[|entries| - 1];
    assert entries == init + [last];
    CompactNeat(last);
    BulletTight(last);
    var before := EntriesText(init);
    var text := before + Bullet(last);
    if init == [] {
      assert before == "" && text == Bullet(last);
      SplitOneLine(text);
    } else {
      EntriesSplit(init);
      assert text == RenderEntries(init) + "\n" + Bullet(last);
      SplitLine(RenderEntries(init), Bullet(last));
    }
    assert EntriesText(entries) == text + "\n";
    BreakTrimmed(text);
  }

  lemma {:induction false} BreakTrimmed(text: string)
    requires Tight(text)
    ensures TrimSpace(text + "\n") == text
  {
    assert text + "\n" == text + ['\n'];
    TrimmedSnoc(text, '\n');
    TrimmedTight(text);
  }

  lemma {:induction false} BulletsRead(entries: seq<string>)
    requires AllNeat(entries)
    ensures EntriesOf(Bullets(entries)) == entries && NoHeadings(Bullets(entries)) && |Bullets(entries)| == |entries|
  {
    if entries != [] {
      var init, last := entries[..|entries| - 1], entries[|entries| - 1];
      assert entries == init + [last];
      BulletsRead(init);
      BulletTight(last);
      BulletRead(last);
      var lines := Bullets(entries);
      assert lines[..|lines| - 1] == Bullets(init);
    }
  }

  /** Extracting what was printed gives the entries back; no item is a heading; the text takes less than its cost. */
  lemma {:induction false} PrintedEntriesReadBack(entries: seq<string>)
    requires AllNeat(entries)
    ensures Extract(RenderEntries(entries)) == entries
    ensures NoHeadings(Split(RenderEntries(entries))) && TrimSpace(RenderEntries(entries)) == RenderEntries(entries)
    ensures |RenderEntries(entries)| <= Cost(entries)
  {
    BulletsRead(entries);
    if entries == [] {
      SplitOneLine("");
      assert Heading("").None?;
    } else {
      EntriesSplit(entries);
      TrimmedTight(RenderEntries(entries));
    }
  }

  // ------------------------------------------------------------------ the write-back

  /** Without NUL characters. */
  function Sanitize(s: string): string {
    if s == "" then "" else (if s[0] == '\0' then "" else [s[0]]) + Sanitize(s[1..])
  }

  /** The new content of a block. */
  function Organized(block: Block, base: string, incoming: string): string {
    var old', new' := Sanitize(base), Sanitize(incoming);
    if ReadOnly(block) then (if TrimSpace(old') != "" then TruncateRunes(TrimSpace(old'), Limit(block)) else old')
    else RenderEntries(Clip(Merge(old', new'), Limit(block)))
  }

  /** The first i blocks, organized. */
  function OrganizedUpTo(base: Blocks, incoming: Blocks, i: nat): Blocks
    requires i <= |ORDER|
  {
    if i == 0 then map[]
    else
      var block := ORDER[i - 1];
      OrganizedUpTo(base, incoming, i - 1)[block := Organized(block, Get(base, block), Get(incoming, block))]
  }

  function Organize(base: Blocks, incoming: Blocks): Blocks { OrganizedUpTo(base, incoming, |ORDER|) }

  lemma {:induction false} OrganizedStep(base: Blocks, incoming: Blocks, i: nat, block: Block, text: string)
    requires i < |ORDER| && block == ORDER[i] && text == Organized(block, Get(base, block), Get(incoming, block))
    ensures OrganizedUpTo(base, incoming, i + 1) == OrganizedUpTo(base, incoming, i)[block := text]
  {
  }

  method OrganizeBlocks(base: Blocks, incoming: Blocks) returns (blocks: Blocks)
    ensures blocks == Organize(base, incoming)
  {
    blocks := map[];
    var i := 0;
    while i < |ORDER|
      invariant 0 <= i <= |ORDER| && blocks == OrganizedUpTo(base, incoming, i)
    {
      var block := ORDER[i];
      var text := OrganizeBlock(block, Get(base, block), Get(incoming, block));
      OrganizedStep(base, incoming, i, block, text);
      blocks := blocks[block := text];
      i := i + 1;
    }
  }

  method OrganizeBlock(block: Block, base: string, incoming: string) returns (text: string)
    ensures text == Organized(block, base, incoming)
  {
    text := Sanitize(base);
    var added := Sanitize(incoming);
    if ReadOnly(block) {
      if TrimSpace(text) != "" {
        text := TruncateRunes(TrimSpace(text), Limit(block));
      }
    } else {
      var entries := MergeBlockEntries(text, added);
      entries := ClipEntriesToLimit(entries, Limit(block));
      text := RenderEntryList(entries);
    }
  }

  /** The blocks of a file: parsed when it has any, else converted from the older sections. */
  function AsBlocks(content: string, legacy: string -> Blocks): Blocks {
    var text := TrimSpace(content);
    if text == "" then map[]
    else if ParseBlocks(text).found then ParseBlocks(text).blocks
    else legacy(text)
  }

  class MemoryStore {
    const legacy: string -> Blocks
    var file: string

    constructor (legacy: string -> Blocks, file: string)
      ensures this.legacy == legacy && this.file == file
    {
      this.legacy, this.file := legacy, file;
    }

    method ReadAsBlocks(content: string) returns (blocks: Blocks)
      ensures blocks == AsBlocks(content, legacy)
    {
      var text := TrimSpace(content);
      if text == "" {
        return map[];
      }
      var parsed, found := ParseMemoryBlocks(text);
      blocks := if found then parsed else legacy(text);
    }

    method OrganizeWriteback(extracted: string, now: string)
      modifies this
      ensures file == Render(Organize(AsBlocks(old(file), legacy), AsBlocks(extracted, legacy)), now)
    {
      var base := ReadAsBlocks(file);
      var incoming := ReadAsBlocks(extracted);
      var blocks := OrganizeBlocks(base, incoming);
      file := RenderMemoryBlocks(blocks, now);
    }
  }

  // ------------------------------------------------------------------ what the write-back guarantees

  lemma {:induction false} OrganizedGet(base: Blocks, incoming: Blocks, block: Block)
    ensures Get(Organize(base, incoming), block) == Organized(block, Get(base, block), Get(incoming, block))
  {
    OrganizedAt(base, incoming, 4, match block case Persona => 0 case Human => 1 case Projects => 2 case Facts => 3);
  }

  lemma {:induction false} OrganizedAt(base: Blocks, incoming: Blocks, i: nat, j: nat)
    requires j < i <= |ORDER|
    ensures Get(OrganizedUpTo(base, incoming, i), ORDER[j]) ==
            Organized(ORDER[j], Get(base, ORDER[j]), Get(incoming, ORDER[j]))
  {
    var last := ORDER[i - 1];
    OrganizedStep(base, incoming, i - 1, last, Organized(last, Get(base, last), Get(incoming, last)));
    if j < i - 1 {
      OrganizedAt(base, incoming, i - 1, j);
      OrderIsDistinct(j, i - 1);
    }
  }

  /** The entries that a writable block holds afterwards. */
  function Kept(block: Block, base: string, incoming: string): seq<string> {
    Clip(Merge(Sanitize(base), Sanitize(incoming)), Limit(block))
  }

  lemma {:induction false} MergeNeat(base: string, incoming: string)
    ensures AllNeat(Merge(base, incoming)) && Distinct(Merge(base, incoming))
  {
    ExtractNeat(base);
    ExtractNeat(incoming);
    assert AllNeat(Extract(base) + Extract(incoming));
    DedupDistinct(Extract(base) + Extract(incoming));
  }

  /** Whatever was extracted, a writable block is within its limit, has no heading line and lists its entries. */
  lemma {:induction false} WritableSafe(block: Block, base: string, incoming: string)
    requires !ReadOnly(block)
    ensures var text := Organized(block, base, incoming);
            && |text| <= Limit(block) && TrimSpace(text) == text && NoHeadings(Split(text))
            && Extract(text) == Kept(block, base, incoming)
            && AllNeat(Kept(block, base, incoming))
  {
    MergeNeat(Sanitize(base), Sanitize(incoming));
    var k := ClipKeepsNewest(Merge(Sanitize(base), Sanitize(incoming)), Limit(block));
    PrintedEntriesReadBack(Kept(block, base, incoming));
  }

  /** Reading the written file back gives the writable blocks exactly, whatever all blocks contained. */
  lemma {:induction false} WritebackReadsBack(base: Blocks, incoming: Blocks, now: string, block: Block)
    requires OneLine(now) && !ReadOnly(block)
    ensures var parsed := ParseBlocks(Render(Organize(base, incoming), now)).blocks;
            && block in parsed && parsed[block] == Organized(block, Get(base, block), Get(incoming, block))
            && Extract(parsed[block]) == Kept(block, Get(base, block), Get(incoming, block))
  {
    OrganizedClean(base, incoming);
    OrganizedGet(base, incoming, block);
    WritableSafe(block, Get(base, block), Get(incoming, block));
    WritableReadBack(Organize(base, incoming), now);
  }

  /** Read-only blocks do not depend on what was extracted, and are within their limits. */
  lemma {:induction false} ReadOnlyIndependent(base: Blocks, one: Blocks, other: Blocks, block: Block)
    requires ReadOnly(block)
    ensures Get(Organize(base, one), block) == Get(Organize(base, other), block)
    ensures |TrimSpace(Get(Organize(base, one), block))| <= Limit(block)
  {
    OrganizedGet(base, one, block);
    OrganizedGet(base, other, block);
    var text := TrimSpace(Sanitize(Get(base, block)));
    TrimmedTight(text);
    TrimmedTight(text[..if |text| < Limit(block) then |text| else Limit(block)]);
    TrimmedTight(Organized(block, Get(base, block), Get(one, block)));
  }

  /** Reading a printed file as the store does is parsing it. */
  lemma {:induction false} FileIsParsed(blocks: Blocks, now: string, legacy: string -> Blocks)
    requires OneLine(now) && Clean(blocks, Projects) && Clean(blocks, Facts)
    ensures AsBlocks(Render(blocks, now), legacy) == ParseBlocks(Render(blocks, now)).blocks
  {
    var text := Render(blocks, now);
    var body := TrimSpace(Printed(blocks, now, |ORDER|));
    assert text == body + ['\n'];
    TrimmedSnoc(body, '\n');
    TrimmedTight(Printed(blocks, now, |ORDER|));
    TrimmedTight(body);
    TrailingBreak(body);
    WritableReadBack(blocks, now);
    FoundWhenParsed(Split(body), Projects);
    PrintedStarts(blocks, now, |ORDER|);
  }

  /** Reading a printed file gives the writable blocks back. */
  lemma {:induction false} FileReadsBack(blocks: Blocks, now: string, legacy: string -> Blocks)
    requires OneLine(now) && Clean(blocks, Projects) && Clean(blocks, Facts)
    ensures var read := AsBlocks(Render(blocks, now), legacy);
            ReadsBack(blocks, read, Projects) && ReadsBack(blocks, read, Facts)
  {
    FileIsParsed(blocks, now, legacy);
    WritableReadBack(blocks, now);
  }

  // ------------------------------------------------------------------ writing back again

  predicate NoNul(s: string) { forall i :: 0 <= i < |s| ==> s[i] != '\0' }

  predicate NoNuls(entries: seq<string>) { forall i :: 0 <= i < |entries| ==> NoNul(entries[i]) }

  lemma {:induction false} SanitizeNoNul(s: string)
    ensures NoNul(Sanitize(s))
    ensures NoNul(s) ==> Sanitize(s) == s
  {
    if s != "" {
      SanitizeNoNul(s[1..]);
      assert s == [s[0]] + s[1..];
    }
  }

  lemma {:induction false} TrimmedNoNul(s: string)
    requires NoNul(s)
    ensures NoNul(TrimSpace(s)) && NoNul(DropBullets(s)) && NoNul(Squeeze(s)) && NoNuls(Split(s))
    decreases |s|
  {
    if s != "" {
      TrimmedNoNul(s[1..]);
      if IsSpace(s[|s| - 1]) {
        TrimmedNoNul(s[..|s| - 1]);
      }
    }
  }

  lemma {:induction false} EntryNoNul(raw: string)
    requires NoNul(raw)
    ensures NoNul(EntryOf(raw))
  {
    TrimmedNoNul(raw);
    TrimmedNoNul(TrimSpace(raw));
    TrimmedNoNul(DropBullets(TrimSpace(raw)));
    TrimmedNoNul(TrimSpace(DropBullets(TrimSpace(raw))));
    TrimmedNoNul(TrimSpace(TrimSpace(DropBullets(TrimSpace(raw)))));
  }

  lemma {:induction false} EntriesNoNul(lines: seq<string>)
    requires NoNuls(lines)
    ensures NoNuls(EntriesOf(lines))
  {
    if lines != [] {
      EntriesNoNul(lines[..|lines| - 1]);
      EntryNoNul(lines[|lines| - 1]);
    }
  }

  lemma {:induction false} ExtractNoNul(content: string)
    requires NoNul(content)
    ensures NoNuls(Extract(content))
  {
    TrimmedNoNul(content);
    TrimmedNoNul(TrimSpace(content));
    EntriesNoNul(Split(TrimSpace(content)));
  }

  lemma {:induction false} DedupNoNul(entries: seq<string>)
    requires NoNuls(entries)
    ensures NoNuls(Dedup(entries))
  {
    if entries != [] {
      DedupNoNul(entries[..|entries| - 1]);
      TrimmedNoNul(entries[|entries| - 1]);
    }
  }

  lemma {:induction false} TextNoNul(entries: seq<string>)
    requires NoNuls(entries)
    ensures NoNul(EntriesText(entries))
  {
    if entries != [] {
      TextNoNul(entries[..|entries| - 1]);
      TrimmedNoNul(entries[|entries| - 1]);
    }
  }

  lemma {:induction false} ClipNoNul(entries: seq<string>, limit: int)
    requires AllNeat(entries) && NoNuls(entries) && limit >= 4
    ensures NoNuls(Clip(entries, limit))
  {
    var k := ClipKeepsNewest(entries, limit);
    if entries != [] {
      var last := entries[|entries| - 1];
      assert NoNul(last);
      if |last| > limit - 3 {
        TrimmedNoNul(last[..limit - 3]);
      }
    }
  }

  lemma {:induction false} OrganizedNoNul(block: Block, base: string, incoming: string)
    requires !ReadOnly(block)
    ensures NoNul(Organized(block, base, incoming))
  {
    SanitizeNoNul(base);
    SanitizeNoNul(incoming);
    ExtractNoNul(Sanitize(base));
    ExtractNoNul(Sanitize(incoming));
    DedupNoNul(Extract(Sanitize(base)) + Extract(Sanitize(incoming)));
    MergeNeat(Sanitize(base), Sanitize(incoming));
    ClipNoNul(Merge(Sanitize(base), Sanitize(incoming)), Limit(block));
    TextNoNul(Kept(block, base, incoming));
    TrimmedNoNul(EntriesText(Kept(block, base, incoming)));
  }

  lemma {:induction false} DistinctSuffix(entries: seq<string>, k: nat)
    requires Distinct(entries) && k <= |entries|
    ensures Distinct(entries[k..])
  {
    forall i, j | 0 <= i < j < |entries[k..]| ensures Lower(entries[k..][i]) != Lower(entries[k..][j]) {
      assert Lower(entries[k + i]) != Lower(entries[k + j]);
    }
  }

  lemma {:induction false} ClippedIsStable(entries: seq<string>, limit: int)
    requires AllNeat(entries) && Distinct(entries) && limit >= 4
    ensures Clip(Dedup(Clip(entries, limit)), limit) == Clip(entries, limit)
  {
    var k := ClipKeepsNewest(entries, limit);
    var kept := Clip(entries, limit);
    DistinctSuffix(entries, k);
    DedupFixes(kept);
    ClipFixes(kept, limit);
  }

  /** Organizing a writable block again with nothing new leaves it as it is, rune for rune. */
  lemma {:induction false} SecondWritebackKeeps(block: Block, base: string, incoming: string)
    requires !ReadOnly(block)
    ensures var text := Organized(block, base, incoming);
            Organized(block, text, "") == text
  {
    var text, kept := Organized(block, base, incoming), Kept(block, base, incoming);
    OrganizedNoNul(block, base, incoming);
    SanitizeNoNul(text);
    WritableSafe(block, base, incoming);
    MergeNeat(Sanitize(base), Sanitize(incoming));
    ClippedIsStable(Merge(Sanitize(base), Sanitize(incoming)), Limit(block));
    assert Extract(text) + Extract("") == kept;
  }

  /** Writing back again with nothing extracted leaves the writable blocks of the file as they were. */
  lemma {:induction false} SecondFileKeeps(
      base: Blocks, incoming: Blocks, now: string, later: string, legacy: string -> Blocks, block: Block)
    requires OneLine(now) && OneLine(later) && !ReadOnly(block)
    ensures var first := Organize(base, incoming);
            var second := Organize(AsBlocks(Render(first, now), legacy), map[]);
            && Get(second, block) == Get(first, block)
            && ReadsBack(first, AsBlocks(Render(second, later), legacy), block)
  {
    var first := Organize(base, incoming);
    var read := AsBlocks(Render(first, now), legacy);
    var second := Organize(read, map[]);
    OrganizedClean(base, incoming);
    FileReadsBack(first, now, legacy);
    OrganizedGet(base, incoming, block);
    OrganizedGet(read, map[], block);
    SecondWritebackKeeps(block, Get(base, block), Get(incoming, block));
    WritableSafe(block, Get(base, block), Get(incoming, block));
    OrganizedClean(read, map[]);
    FileReadsBack(second, later, legacy);
  }

  lemma {:induction false} OrganizedClean(base: Blocks, incoming: Blocks)
    ensures Clean(Organize(base, incoming), Projects) && Clean(Organize(base, incoming), Facts)
  {
    OrganizedGet(base, incoming, Projects);
    OrganizedGet(base, incoming, Facts);
    WritableSafe(Projects, Get(base, Projects), Get(incoming, Projects));
    WritableSafe(Facts, Get(base, Facts), Get(incoming, Facts));
  }

  // ------------------------------------------------------------------ what becomes of the read-only blocks

  /** Both read-only blocks are read back from the written file as they were organized. */
  predicate ReadOnlyReadBack(blocks: Blocks, read: Blocks) {
    ReadsBack(blocks, read, Persona) && ReadsBack(blocks, read, Human)
  }

  lemma {:induction false} CleanSurvivesIff(base: Blocks, incoming: Blocks, now: string, legacy: string -> Blocks)
    requires OneLine(now)
    ensures var blocks := Organize(base, incoming);
            ReadOnlyReadBack(blocks, AsBlocks(Render(blocks, now), legacy)) <==>
              Clean(blocks, Persona) && Clean(blocks, Human)
  {
    var blocks := Organize(base, incoming);
    var read := ParseBlocks(Render(blocks, now)).blocks;
    OrganizedClean(base, incoming);
    FileIsParsed(blocks, now, legacy);
    WritableReadBack(blocks, now);
    RoundTripIff(blocks, now);
    if ReadOnlyReadBack(blocks, read) {
      forall block ensures ReadsBack(blocks, read, block) {
        match block case Persona => case Human => case Projects => case Facts =>
      }
      assert AllReadBack(blocks, read);
    } else if Clean(blocks, Persona) && Clean(blocks, Human) {
      forall block ensures Clean(blocks, block) {
        match block case Persona => case Human => case Projects => case Facts =>
      }
      assert AllClean(blocks);
    }
  }

  /** The content of a block without NULs, trimmed and cut to the limit. */
  function CutText(base: Blocks, block: Block): string {
    TruncateRunes(TrimSpace(Sanitize(Get(base, block))), Limit(block))
  }

  lemma {:induction false} OrganizedCut(base: Blocks, incoming: Blocks, block: Block)
    requires ReadOnly(block)
    ensures TrimSpace(Get(Organize(base, incoming), block)) == CutText(base, block)
  {
    OrganizedGet(base, incoming, block);
    var text := TrimSpace(Sanitize(Get(base, block)));
    TrimmedTight(Sanitize(Get(base, block)));
    TrimmedTight(text);
    if |text| > Limit(block) {
      TrimmedTight(text[..Limit(block)]);
      TrimmedTight(TrimSpace(text[..Limit(block)]));
    }
  }

  predicate CutClean(base: Blocks, block: Block) { NoHeadings(Split(CutText(base, block))) }

  predicate ReadsCut(base: Blocks, read: Blocks, block: Block) { block in read && read[block] == CutText(base, block) }

  lemma {:induction false} OrganizedReads(base: Blocks, incoming: Blocks, block: Block, blocks: Blocks, read: Blocks)
    requires ReadOnly(block) && blocks == Organize(base, incoming)
    ensures ReadsBack(blocks, read, block) == ReadsCut(base, read, block)
    ensures Clean(blocks, block) == CutClean(base, block)
  {
    OrganizedCut(base, incoming, block);
  }

  /**
   The read-only blocks are read back from the written file exactly when no line of either is a heading
   after its content is freed of NULs, trimmed and cut. What is read back is that text.
   */
  lemma {:induction false} ReadOnlySurvivesIff(base: Blocks, incoming: Blocks, now: string, legacy: string -> Blocks)
    requires OneLine(now)
    ensures var read := AsBlocks(Render(Organize(base, incoming), now), legacy);
            ReadsCut(base, read, Persona) && ReadsCut(base, read, Human) <==>
              CutClean(base, Persona) && CutClean(base, Human)
  {
    var blocks := Organize(base, incoming);
    var read := AsBlocks(Render(blocks, now), legacy);
    CleanSurvivesIff(base, incoming, now, legacy);
    OrganizedReads(base, incoming, Persona, blocks, read);
    OrganizedReads(base, incoming, Human, blocks, read);
  }

  lemma {:induction false} TrimmedKeepsNul(s: string)
    requires !NoNul(s)
    ensures !NoNul(TrimSpace(s))
    decreases |s|
  {
    var k :| 0 <= k < |s| && s[k] == '\0';
    if IsSpace(s[|s| - 1]) {
      assert s[..|s| - 1][k] == '\0';
      TrimmedKeepsNul(s[..|s| - 1]);
    } else if IsSpace(s[0]) {
      assert s[1..][k - 1] == '\0';
      TrimmedKeepsNul(s[1..]);
    }
  }

  /** A read-only block keeps its content exactly when that holds no NUL and is within the limit. */
  lemma {:induction false} ReadOnlyUntouchedIff(block: Block, content: string, incoming: string)
    requires ReadOnly(block)
    ensures TrimSpace(Organized(block, content, incoming)) == TrimSpace(content) <==>
            NoNul(content) && |TrimSpace(content)| <= Limit(block)
  {
    var text := Sanitize(content);
    SanitizeNoNul(content);
    TrimmedTight(text);
    TrimmedTight(TrimSpace(text));
    TrimmedNoNul(text);
    if NoNul(content) {
      if |TrimSpace(text)| > Limit(block) {
        TrimmedTight(TrimSpace(text)[..Limit(block)]);
        TrimmedTight(Organized(block, content, incoming));
      }
    } else {
      TrimmedKeepsNul(content);
      OrganizedReadOnlyNoNul(block, content, incoming);
      TrimmedNoNul(Organized(block, content, incoming));
    }
  }

  lemma {:induction false} OrganizedReadOnlyNoNul(block: Block, content: string, incoming: string)
    requires ReadOnly(block)
    ensures NoNul(Organized(block, content, incoming))
  {
    var text := Sanitize(content);
    SanitizeNoNul(content);
    TrimmedNoNul(text);
    if |TrimSpace(text)| > Limit(block) {
      TrimmedNoNul(TrimSpace(text)[..Limit(block)]);
    }
  }

  /** A block of a file in the labelled form holds no heading line. */
  lemma {:induction false} FileBlocksClean(file: string, legacy: string -> Blocks, block: Block)
    requires ParseBlocks(TrimSpace(file)).found
    ensures Clean(AsBlocks(file, legacy), block)
  {
    var base := AsBlocks(file, legacy);
    SplitOneLine("");
    TrimmedTight("");
    assert Heading("").None?;
    if block in base {
      assert TrimSpace(file) != "" by {
        assert FeedAll(START, [""]) == Feed(FeedAll(START, []), "");
      }
      ParsedIsClean(TrimSpace(file), block);
      SplitKeepsClean(base[block]);
    }
  }

  /** NUL-free read-only blocks within their limits come through the write-back of a labelled file unchanged. */
  lemma {:induction false} ReadOnlyUnchanged(file: string, extracted: string, now: string, legacy: string -> Blocks)
    requires OneLine(now) && ParseBlocks(TrimSpace(file)).found
    requires var base := AsBlocks(file, legacy);
             forall block :: ReadOnly(block) ==>
               NoNul(Get(base, block)) && |TrimSpace(Get(base, block))| <= Limit(block)
    ensures var base := AsBlocks(file, legacy);
            ReadOnlyReadBack(base, AsBlocks(Render(Organize(base, AsBlocks(extracted, legacy)), now), legacy))
  {
    var base, incoming := AsBlocks(file, legacy), AsBlocks(extracted, legacy);
    forall block | ReadOnly(block)
      ensures TrimSpace(Get(Organize(base, incoming), block)) == TrimSpace(Get(base, block))
      ensures Clean(Organize(base, incoming), block)
    {
      OrganizedGet(base, incoming, block);
      ReadOnlyUntouchedIff(block, Get(base, block), Get(incoming, block));
      FileBlocksClean(file, legacy, block);
    }
    CleanSurvivesIff(base, incoming, now, legacy);
  }

  // ------------------------------------------------------------------ how a read-only block gets a heading

  lemma {:induction false} CutForges(body: string, line: string, c: char, limit: nat)
    requires Neat(body) && body[0] != '#' && !IsSpace(c) && limit == |body| + 1 + |line|
    requires Tight(line) && OneLine(line) && Heading(line).Some? && Heading(line + [c]).None?
    ensures var content := body + "\n" + (line + [c]);
            && NoHeadings(Split(content)) && TrimSpace(content) == content
            && TruncateRunes(content, limit) == body + "\n" + line
            && Split(body + "\n" + line) == [body, line]
  {
    var content, cut := body + "\n" + (line + [c]), body + "\n" + line;
    CompactNeat(body);
    TrimmedTight(content);
    TrimmedTight(cut);
    assert content[..limit] == cut;
    SplitOneLine(body);
    SplitLine(body, line + [c]);
    SplitLine(body, line);
    assert Heading(body).None?;
  }

  lemma {:induction false} ForgedLine(body: string, line: string, c: char, limit: nat, block: Block)
    requires Neat(body) && body[0] != '#' && !IsSpace(c) && limit == |body| + 1 + |line|
    requires line == HeadingLine(block) && Heading(line + [c]).None?
    ensures var content := body + "\n" + (line + [c]);
            && NoHeadings(Split(content)) && TrimSpace(content) == content
            && !NoHeadings(Split(TruncateRunes(content, limit)))
  {
    HeadingOfName(block);
    CutForges(body, line, c, limit);
    assert Heading([body, line][1]).Some?;
  }

  lemma {:induction false} LongerName(name: string, longer: string)
    requires Letters(name) && longer == name + ['x'] && Lookup(longer).None?
    ensures Heading("## " + name + ['x']).None?
  {
    HeadingOfLetters(longer);
    assert "## " + name + ['x'] == "## " + longer;
  }

  /** Cutting a read-only block to its limit can turn a line into a heading that was none before. */
  lemma {:induction false} TruncationForgesHeading(body: string)
    requires Neat(body) && body[0] != '#' && |body| == Limit(Persona) - 9
    ensures var content := body + "\n" + (HeadingLine(Facts) + ['x']);
            && NoHeadings(Split(content)) && TrimSpace(content) == content
            && !NoHeadings(Split(TruncateRunes(content, Limit(Persona))))
  {
    LongerName(Name(Facts), "factsx");
    ForgedLine(body, HeadingLine(Facts), 'x', Limit(Persona), Facts);
  }

  lemma {:induction false} SanitizeOneNul(a: string, b: string)
    requires NoNul(a) && NoNul(b)
    ensures Sanitize(a + "\0" + b) == a + b
    decreases |a|
  {
    var s := a + "\0" + b;
    if a == "" {
      SanitizeNoNul(b);
      assert s[1..] == b;
    } else {
      assert s[1..] == a[1..] + "\0" + b;
      SanitizeOneNul(a[1..], b);
      assert [a[0]] + (a[1..] + b) == a + b;
    }
  }

  lemma {:induction false} LowerAt(s: string, k: nat)
    requires k < |s| && s[k] == '\0'
    ensures Lower(s)[k] == '\0'
  {
    if k > 0 {
      LowerAt(s[1..], k - 1);
    }
  }

  lemma {:induction false} NulNoHeading(name: string, k: nat)
    requires k < |name| && name[k] == '\0' && Tight(name) && name[0] != '#' && OneLine(name)
    ensures Tight("## " + name) && OneLine("## " + name) && Heading("## " + name).None?
  {
    var line := "## " + name;
    var one := line[1..];
    var two := one[1..];
    assert forall i :: 3 <= i < |line| ==> line[i] == name[i - 3];
    assert two == " " + name == [' '] + name;
    assert DropHashes(two) == two && DropHashes(one) == two;
    TrimmedTight(line);
    TrimmedCons(' ', name);
    TrimmedTight(name);
    LowerAt(name, k);
    NoNulNames(Lower(name), k);
  }

  lemma {:induction false} NoNulNames(name: string, k: nat)
    requires k < |name| && name[k] == '\0'
    ensures Lookup(name).None?
  {
    assert forall block: Block, i :: 0 <= i < |Name(block)| ==> Name(block)[i] != '\0';
    assert name != Name(Persona) && name != Name(Human) && name != Name(Projects) && name != Name(Facts);
  }

  lemma {:induction false} OneBlockFed(block: Block, lines: seq<string>)
    requires NoHeadings(lines)
    ensures FeedAll(START, [HeadingLine(block)] + lines) == Parse(Some(block), lines, map[], true)
  {
    FeedAllConcat(START, [HeadingLine(block)], lines);
    FeedHeading(START, block);
    FeedPlain(Parse(Some(block), [], map[], true), lines);
    assert [] + lines == lines;
  }

  lemma {:induction false} TitledTight(title: string, content: string)
    requires Tight(title) && Tight(content)
    ensures Tight(title + "\n" + content)
  {
  }

  /** A block that opens a file and is followed by no other. */
  lemma {:induction false} OneBlockParses(block: Block, content: string, legacy: string -> Blocks, title: string)
    requires Tight(content) && NoHeadings(Split(content)) && title == HeadingLine(block)
    ensures AsBlocks(title + "\n" + content, legacy) == map[block := content]
  {
    var text := title + "\n" + content;
    HeadingOfName(block);
    TitledTight(title, content);
    TrimmedTight(text);
    TrimmedTight(content);
    SplitOneLine(title);
    SplitConcat(title, content);
    OneBlockFed(block, Split(content));
    JoinSplit(content);
  }

  /**
   Dropping NULs can forge a heading too, with nothing cut: a persona of one line, within its limit,
   that reads "## fac", NUL, "ts".
   */
  lemma {:induction false} NulForgesHeading(extracted: string, now: string, legacy: string -> Blocks)
    requires OneLine(now)
    ensures var base := AsBlocks(HeadingLine(Persona) + "\n" + ("## " + "fac" + "\0" + "ts"), legacy);
            var blocks := Organize(base, AsBlocks(extracted, legacy));
            && |Get(base, Persona)| <= Limit(Persona) && Clean(base, Persona)
            && Get(blocks, Persona) == HeadingLine(Facts)
            && !ReadOnlyReadBack(blocks, AsBlocks(Render(blocks, now), legacy))
  {
    var name := "fac" + "\0" + "ts";
    var content := "## " + name;
    assert content == "## " + "fac" + "\0" + "ts" == ("## " + "fac") + "\0" + "ts";
    NulNoHeading(name, 3);
    SplitOneLine(content);
    OneBlockParses(Persona, content, legacy, HeadingLine(Persona));
    TrimmedTight(content);
    var base, incoming := AsBlocks(HeadingLine(Persona) + "\n" + content, legacy), AsBlocks(extracted, legacy);
    SanitizeOneNul("## " + "fac", "ts");
    assert "## " + "fac" + "ts" == HeadingLine(Facts);
    HeadingOfName(Facts);
    TrimmedTight(HeadingLine(Facts));
    SplitOneLine(HeadingLine(Facts));
    OrganizedGet(base, incoming, Persona);
    assert Heading(Split(HeadingLine(Facts))[0]).Some?;
    CleanSurvivesIff(base, incoming, now, legacy);
  }
}
