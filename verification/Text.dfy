/** Character classes, trimming and the subsequence order shared by the text algorithms. */
module Text {

  /** The code points that Go's unicode.IsSpace accepts. */
  predicate IsSpace(c: char) {
    || '\U{9}' <= c <= '\U{D}' || c == ' ' || c == '\U{85}' || c == '\U{A0}' || c == '\U{1680}'
    || '\U{2000}' <= c <= '\U{200A}' || c == '\U{2028}' || c == '\U{2029}' || c == '\U{202F}'
    || c == '\U{205F}' || c == '\U{3000}'
  }

  /** The cut set " \t\n\r". */
  predicate IsBlank(c: char) {
    c == ' ' || c == '\t' || c == '\n' || c == '\r'
  }

  function TrimRight(s: string, drop: char -> bool): (r: string)
    ensures |r| <= |s| && r == s[..|r|]
    ensures r != [] ==> !drop(r[|r| - 1])
  {
    if s != [] && drop(s[|s| - 1]) then TrimRight(s[..|s| - 1], drop) else s
  }

  lemma {:induction false} TrimRightDrops(s: string, drop: char -> bool)
    ensures forall i :: |TrimRight(s, drop)| <= i < |s| ==> drop(s[i])
  {
    if s != [] && drop(s[|s| - 1]) {
      TrimRightDrops(s[..|s| - 1], drop);
    }
  }

  /** Without the space at both ends. */
  function TrimSpace(s: string): string {
    if s != "" && IsSpace(s[|s| - 1]) then TrimSpace(s[..|s| - 1])
    else if s != "" && IsSpace(s[0]) then TrimSpace(s[1..])
    else s
  }

  lemma {:induction false} TrimSpaceShorter(s: string)
    ensures |TrimSpace(s)| <= |s|
  {
    if s != "" && IsSpace(s[|s| - 1]) {
      TrimSpaceShorter(s[..|s| - 1]);
    } else if s != "" && IsSpace(s[0]) {
      TrimSpaceShorter(s[1..]);
    }
  }

  /** A text whose first rune is not space loses only its trailing space. */
  lemma {:induction false} TrimSpaceKeepsHead(s: string)
    requires s != [] && !IsSpace(s[0])
    ensures TrimSpace(s) == TrimRight(s, IsSpace) && TrimSpace(s) != [] && TrimSpace(s)[0] == s[0]
  {
    if IsSpace(s[|s| - 1]) {
      TrimSpaceKeepsHead(s[..|s| - 1]);
    }
  }

  /** The non-whitespace runes of s, in order. */
  function Ink(s: string): string {
    if s == [] then [] else (if IsSpace(s[0]) then [] else [s[0]]) + Ink(s[1..])
  }

  lemma {:induction false} InkConcat(a: string, b: string)
    ensures Ink(a + b) == Ink(a) + Ink(b)
  {
    if a == [] {
      assert a + b == b;
    } else {
      InkConcat(a[1..], b);
      var head := if IsSpace(a[0]) then [] else [a[0]];
      assert (a + b)[1..] == a[1..] + b;
      assert Ink(a + b) == head + Ink(a[1..] + b);
      assert head + (Ink(a[1..]) + Ink(b)) == (head + Ink(a[1..])) + Ink(b);
    }
  }

  lemma {:induction false} InkOfSpace(s: string)
    requires forall i :: 0 <= i < |s| ==> IsSpace(s[i])
    ensures Ink(s) == []
  {
    if s != [] {
      InkOfSpace(s[1..]);
    }
  }

  /** Trimming any class of whitespace leaves the ink alone. */
  lemma {:induction false} InkTrimRight(s: string, drop: char -> bool)
    requires forall c :: drop(c) ==> IsSpace(c)
    ensures Ink(TrimRight(s, drop)) == Ink(s)
  {
    var r := TrimRight(s, drop);
    TrimRightDrops(s, drop);
    assert s == r + s[|r|..];
    InkConcat(r, s[|r|..]);
    InkOfSpace(s[|r|..]);
  }

  lemma {:induction false} InkTrimSpace(s: string)
    ensures Ink(TrimSpace(s)) == Ink(s)
  {
    if s != "" && IsSpace(s[|s| - 1]) {
      var init, last := s[..|s| - 1], s[|s| - 1..];
      assert s == init + last;
      InkConcat(init, last);
      InkOfSpace(last);
      InkTrimSpace(init);
    } else if s != "" && IsSpace(s[0]) {
      InkTrimSpace(s[1..]);
    }
  }

  /** a can be obtained from b by deleting elements. */
  predicate Subseq<T(==)>(a: seq<T>, b: seq<T>)
    decreases |b|
  {
    a == [] || (b != [] && (if a[0] == b[0] then Subseq(a[1..], b[1..]) else Subseq(a, b[1..])))
  }

  lemma {:induction false} SubseqTail<T>(a: seq<T>, b: seq<T>)
    requires a != [] && Subseq(a, b)
    ensures Subseq(a[1..], b)
    decreases |b|
  {
    if a[0] == b[0] {
      if a[1..] != [] {
        SubseqTail(a[1..], b[1..]);
        if a[1] != b[0] {
        }
      }
    } else {
      SubseqTail(a, b[1..]);
      if a[1..] != [] && a[1] == b[0] {
        SubseqTail(a[1..], b[1..]);
      }
    }
  }

  lemma {:induction false} SubseqSkip<T>(a: seq<T>, x: T, b: seq<T>)
    requires Subseq(a, b)
    ensures Subseq(a, [x] + b)
  {
    assert ([x] + b)[1..] == b;
    if a != [] && a[0] == x {
      SubseqTail(a, b);
    }
  }

  lemma {:induction false} SubseqRefl<T>(a: seq<T>)
    ensures Subseq(a, a)
  {
    if a != [] {
      SubseqRefl(a[1..]);
    }
  }

  lemma {:induction false} SubseqTrans<T>(a: seq<T>, b: seq<T>, c: seq<T>)
    requires Subseq(a, b) && Subseq(b, c)
    ensures Subseq(a, c)
    decreases |c|
  {
    if a != [] {
      if b[0] == c[0] {
        if a[0] == b[0] {
          SubseqTrans(a[1..], b[1..], c[1..]);
        } else {
          SubseqTrans(a, b[1..], c[1..]);
        }
      } else {
        SubseqTrans(a, b, c[1..]);
        if a[0] == c[0] {
          SubseqTail(a, c[1..]);
        }
      }
    }
  }

  lemma {:induction false} SubseqConcat<T>(a: seq<T>, b: seq<T>, c: seq<T>, d: seq<T>)
    requires Subseq(a, b) && Subseq(c, d)
    ensures Subseq(a + c, b + d)
    decreases |b|
  {
    if b == [] {
      assert a + c == c && b + d == d;
    } else {
      assert (b + d)[1..] == b[1..] + d;
      assert b + d == [b[0]] + (b[1..] + d);
      if a != [] && a[0] == b[0] {
        SubseqConcat(a[1..], b[1..], c, d);
        assert (a + c)[1..] == a[1..] + c;
      } else {
        SubseqConcat(a, b[1..], c, d);
        SubseqSkip(a + c, b[0], b[1..] + d);
      }
    }
  }

  /** Extra elements on either side do no harm. */
  lemma {:induction false} SubseqPad<T>(a: seq<T>, pre: seq<T>, b: seq<T>, post: seq<T>)
    requires Subseq(a, b)
    ensures Subseq(a, pre + b + post)
  {
    SubseqConcat([], pre, a, b);
    assert [] + a == a;
    SubseqConcat(a, pre + b, [], post);
    assert a + [] == a;
  }

  /** The tail of a supersequence may be replaced by a supersequence of it. */
  lemma {:induction false} SubseqReplace<T>(a: seq<T>, pre: seq<T>, tail: seq<T>, x: seq<T>, y: seq<T>)
    requires Subseq(a, pre + tail) && Subseq(tail, x + y)
    ensures Subseq(a, pre + x + y)
  {
    SubseqRefl(pre);
    SubseqConcat(pre, pre, tail, x + y);
    assert pre + (x + y) == pre + x + y;
    SubseqTrans(a, pre + tail, pre + x + y);
  }
}
