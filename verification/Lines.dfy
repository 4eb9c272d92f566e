/** Texts as lists of lines, and the whitespace operations of the memory files. */
module Lines {
  import opened Text

  /** The lines of a text with one more rune in front. */
  function Prefix(c: char, lines: seq<string>): (r: seq<string>)
    requires lines != []
    ensures r != []
  {
    if c == '\n' then [""] + lines else [[c] + lines[0]] + lines[1..]
  }

  function Split(s: string): (lines: seq<string>)
    ensures lines != []
  {
    if s == "" then [""] else Prefix(s[0], Split(s[1..]))
  }

  lemma {:induction false} PrefixConcat(c: char, a: seq<string>, b: seq<string>)
    requires a != []
    ensures Prefix(c, a + b) == Prefix(c, a) + b
  {
    assert (a + b)[1..] == a[1..] + b;
  }

  /** The lines of a text with one more rune at the end. */
  function Suffix(lines: seq<string>, c: char): seq<string>
    requires lines != []
  {
    if c == '\n' then lines + [""] else lines[..|lines| - 1] + [lines[|lines| - 1] + [c]]
  }

  lemma {:induction false} PrefixSuffix(c: char, lines: seq<string>, d: char)
    requires lines != []
    ensures Prefix(c, Suffix(lines, d)) == Suffix(Prefix(c, lines), d)
  {
    if c != '\n' && d != '\n' && |lines| == 1 {
      assert [c] + (lines[0] + [d]) == [c] + lines[0] + [d];
    }
  }

  function Join(lines: seq<string>): string {
    if lines == [] then "" else if |lines| == 1 then lines[0] else lines[0] + "\n" + Join(lines[1..])
  }

  predicate OneLine(s: string) { forall i :: 0 <= i < |s| ==> s[i] != '\n' }

  predicate OneLiners(lines: seq<string>) { forall i :: 0 <= i < |lines| ==> OneLine(lines[i]) }

  lemma {:induction false} SplitOneLiners(s: string)
    ensures OneLiners(Split(s))
  {
    if s != "" {
      SplitOneLiners(s[1..]);
    }
  }

  lemma {:induction false} SplitOneLine(s: string)
    requires OneLine(s)
    ensures Split(s) == [s]
  {
    if s != "" {
      SplitOneLine(s[1..]);
      assert [s[0]] + s[1..] == s;
    }
  }

  lemma {:induction false} SplitConcat(a: string, b: string)
    ensures Split(a + "\n" + b) == Split(a) + Split(b)
  {
    if a == "" {
      assert (a + "\n" + b)[1..] == b;
    } else {
      SplitConcat(a[1..], b);
      assert (a + "\n" + b)[1..] == a[1..] + "\n" + b;
      PrefixConcat(a[0], Split(a[1..]), Split(b));
    }
  }

  lemma {:induction false} JoinSplit(s: string)
    ensures Join(Split(s)) == s
  {
    if s != "" {
      JoinSplit(s[1..]);
      var rest := Split(s[1..]);
      if s[0] == '\n' {
        assert ([""] + rest)[1..] == rest;
        assert [s[0]] + s[1..] == s;
      } else {
        JoinHead(s[0], rest);
        assert [s[0]] + s[1..] == s;
      }
    }
  }

  lemma {:induction false} JoinHead(c: char, lines: seq<string>)
    requires lines != []
    ensures Join([[c] + lines[0]] + lines[1..]) == [c] + Join(lines)
  {
    var longer := [[c] + lines[0]] + lines[1..];
    assert longer[1..] == lines[1..];
    if |lines| > 1 {
      assert [c] + lines[0] + "\n" + Join(lines[1..]) == [c] + (lines[0] + "\n" + Join(lines[1..]));
    }
  }

  lemma {:induction false} SplitJoin(lines: seq<string>)
    requires OneLiners(lines) && lines != []
    ensures Split(Join(lines)) == lines
  {
    SplitOneLine(lines[0]);
    if |lines| > 1 {
      SplitJoin(lines[1..]);
      SplitConcat(lines[0], Join(lines[1..]));
      assert lines == [lines[0]] + lines[1..];
    }
  }

  /** How the lines change when a rune is added at the end. */
  lemma {:induction false} SplitSnoc(s: string, c: char)
    ensures Split(s + [c]) == Suffix(Split(s), c)
  {
    assert (s + [c])[1..] == if s == "" then "" else s[1..] + [c];
    if s == "" {
      assert "" + [c] == [c] + "";
    } else {
      SplitSnoc(s[1..], c);
      PrefixSuffix(s[0], Split(s[1..]), c);
    }
  }

  // ------------------------------------------------------------------ trimming

  predicate Tight(s: string) { s != "" && !IsSpace(s[0]) && !IsSpace(s[|s| - 1]) }

  lemma {:induction false} TrimmedTight(s: string)
    ensures TrimSpace(s) == "" || Tight(TrimSpace(s))
    ensures |TrimSpace(s)| <= |s|
    ensures Tight(s) ==> TrimSpace(s) == s
  {
    if s != "" && IsSpace(s[|s| - 1]) {
      TrimmedTight(s[..|s| - 1]);
    } else if s != "" && IsSpace(s[0]) {
      TrimmedTight(s[1..]);
    }
  }

  lemma {:induction false} TrimmedSnoc(s: string, c: char)
    requires IsSpace(c)
    ensures TrimSpace(s + [c]) == TrimSpace(s)
  {
    assert (s + [c])[..|s|] == s;
  }

  lemma {:induction false} TrimmedCons(c: char, s: string)
    requires IsSpace(c)
    ensures TrimSpace([c] + s) == TrimSpace(s)
  {
    if s == "" {
      assert [c] + s == "" + [c];
      TrimmedSnoc("", c);
    } else if IsSpace(s[|s| - 1]) {
      TrimmedCons(c, s[..|s| - 1]);
      assert ([c] + s)[..|s|] == [c] + s[..|s| - 1];
    } else {
      assert ([c] + s)[1..] == s;
    }
  }

  // ------------------------------------------------------------------ compacting

  /** Runs of white space become one space. */
  function Squeeze(s: string): string {
    if s == "" then ""
    else
      var rest := Squeeze(s[1..]);
      if !IsSpace(s[0]) then [s[0]] + rest
      else if rest == "" || rest[0] == ' ' then rest
      else " " + rest
  }

  function Compact(s: string): string { Squeeze(TrimSpace(s)) }

  /** One space at a time and no other white space. */
  predicate Loose(s: string) {
    forall i :: 0 <= i < |s| && IsSpace(s[i]) ==> s[i] == ' ' && (i + 1 < |s| ==> !IsSpace(s[i + 1]))
  }

  predicate Neat(s: string) { Tight(s) && Loose(s) }

  lemma {:induction false} LooseCons(c: char, rest: string)
    requires Loose(rest)
    ensures !IsSpace(c) || (c == ' ' && (rest == "" || !IsSpace(rest[0]))) ==> Loose([c] + rest)
    ensures rest != "" && IsSpace(rest[0]) ==> rest[0] == ' '
  {
  }

  lemma {:induction false} SqueezeLoose(s: string)
    ensures Loose(Squeeze(s))
    ensures s != "" && !IsSpace(s[0]) ==> Squeeze(s) != "" && Squeeze(s)[0] == s[0]
    ensures s != "" && !IsSpace(s[|s| - 1]) ==> Squeeze(s) != "" && !IsSpace(Squeeze(s)[|Squeeze(s)| - 1])
  {
    if s != "" {
      SqueezeLoose(s[1..]);
      var rest := Squeeze(s[1..]);
      assert rest == "" || Squeeze(s)[|Squeeze(s)| - 1] == rest[|rest| - 1];
      LooseCons(s[0], rest);
      LooseCons(' ', rest);
    }
  }

  lemma {:induction false} SqueezeKeepsLoose(s: string)
    requires Loose(s) && (s != "" ==> !IsSpace(s[|s| - 1]))
    ensures Squeeze(s) == s
  {
    if s != "" {
      var rest := s[1..];
      assert forall i :: 0 <= i < |rest| ==> rest[i] == s[i + 1];
      SqueezeKeepsLoose(rest);
      assert s == [s[0]] + rest;
    }
  }

  /** Compacting gives a neat text or nothing, and leaves neat texts as they are. */
  lemma {:induction false} CompactNeat(s: string)
    ensures Compact(s) == "" || Neat(Compact(s))
    ensures Neat(s) ==> Compact(s) == s && TrimSpace(s) == s && OneLine(s)
  {
    TrimmedTight(s);
    SqueezeLoose(TrimSpace(s));
    if Neat(s) {
      SqueezeKeepsLoose(s);
      assert forall i :: 0 <= i < |s| ==> s[i] != '\n' || IsSpace(s[i]);
    }
  }

  /** Compacting loses and reorders nothing but white space. */
  lemma {:induction false} CompactInk(s: string)
    ensures Ink(Compact(s)) == Ink(s)
  {
    InkTrimSpace(s);
    SqueezeInk(TrimSpace(s));
  }

  lemma {:induction false} SqueezeInk(s: string)
    ensures Ink(Squeeze(s)) == Ink(s)
  {
    if s != "" {
      SqueezeInk(s[1..]);
      InkConcat([s[0]], s[1..]);
      InkConcat([s[0]], Squeeze(s[1..]));
      InkConcat(" ", Squeeze(s[1..]));
      InkOfSpace(" ");
      assert s == [s[0]] + s[1..];
      if IsSpace(s[0]) {
        InkOfSpace([s[0]]);
      }
    }
  }

  /** Cutting a neat text short and trimming it leaves it neat. */
  lemma {:induction false} PrefixNeat(s: string, k: nat)
    requires Neat(s) && 0 < k <= |s|
    ensures Neat(TrimSpace(s[..k])) && |TrimSpace(s[..k])| <= k
  {
    var t := s[..k];
    if IsSpace(t[k - 1]) {
      assert !IsSpace(t[k - 2]);
      assert t[..k - 1] == s[..k - 1];
      TrimmedTight(s[..k - 1]);
      assert TrimSpace(t) == TrimSpace(s[..k - 1]);
    } else {
      TrimmedTight(t);
    }
  }
}
