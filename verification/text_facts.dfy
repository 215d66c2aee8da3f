/** Facts about the string helpers: how stripping composes, what the squeeze
    and the line split/join guarantee, and when a concatenation can create a
    run of three newlines or two adjacent blanks. */
module TextFacts {
  import opened Text

  /** Stripping all whitespace removes at least what stripping spaces and
      tabs removes. */
  lemma RStripWithinBlanks(s: string)
    ensures IsPrefix(RStrip(s), RStripBlanks(s))
  {
    var r := RStrip(s);
    var b := RStripBlanks(s);
    if |r| > |b| {
      assert false;
    }
    assert b[..|r|] == s[..|r|];
  }

  /** A text that is empty or ends in a non-space survives, as a prefix,
      the stripping of anything appended to it. */
  lemma RStripKeepsSolidPrefix(p: string, q: string)
    requires p == [] || !IsSpace(p[|p| - 1])
    ensures IsPrefix(p, RStrip(p + q))
  {
    var r := RStrip(p + q);
    if |r| < |p| {
      assert false;
    }
    assert r[..|p|] == (p + q)[..|p|] == p;
  }

  /** Whitespace appended after a text is all that `rstrip` takes away. */
  lemma {:induction false} RStripDropsSpaceTail(p: string, q: string)
    requires forall i :: 0 <= i < |q| ==> IsSpace(q[i])
    ensures RStrip(p + q) == RStrip(p)
    decreases |q|
  {
    if |q| == 0 {
      assert p + q == p;
    } else {
      var pq := p + q;
      assert pq[|pq| - 1] == q[|q| - 1];
      assert pq[..|pq| - 1] == p + q[..|q| - 1];
      RStripDropsSpaceTail(p, q[..|q| - 1]);
    }
  }

  lemma RStripIdempotent(s: string)
    ensures RStrip(RStrip(s)) == RStrip(s)
  {
    RStripDropsSpaceTail(RStrip(s), []);
    assert RStrip(s) + [] == RStrip(s);
  }

  // ---- runs of newlines -------------------------------------------------

  lemma NoTriplePrefix(s: string, k: nat)
    requires k <= |s| && NoTripleNewline(s)
    ensures NoTripleNewline(s[..k])
  {
    forall i | 0 <= i && i + 2 < k
      ensures !TripleAt(s[..k], i)
    {
      assert !TripleAt(s, i);
    }
  }

  lemma NoTripleSuffix(s: string, k: nat)
    requires k <= |s| && NoTripleNewline(s)
    ensures NoTripleNewline(s[k..])
  {
    forall i | 0 <= i && i + 2 < |s| - k
      ensures !TripleAt(s[k..], i)
    {
      assert !TripleAt(s, i + k);
    }
  }

  lemma NoTripleWithoutNewlines(s: string)
    requires '\n' !in s
    ensures NoTripleNewline(s)
  {
    forall i | 0 <= i && i + 2 < |s|
      ensures !TripleAt(s, i)
    {
      assert s[i] in s;
    }
  }

  /** A run of three newlines in `a + b` that is in neither part must straddle
      the join, so both sides of the join are newlines. */
  lemma NoTripleConcat(a: string, b: string)
    requires NoTripleNewline(a) && NoTripleNewline(b)
    requires !(EndsWithNewline(a) && StartsWithNewline(b))
    ensures NoTripleNewline(a + b)
  {
    var s := a + b;
    forall i | 0 <= i && i + 2 < |s|
      ensures !TripleAt(s, i)
    {
      if i + 2 < |a| {
        assert !TripleAt(a, i);
      } else if i >= |a| {
        assert !TripleAt(b, i - |a|);
      } else {
        assert s[|a| - 1] == a[|a| - 1] && s[|a|] == b[0];
      }
    }
  }

  // ---- adjacent blanks --------------------------------------------------

  predicate BlankPairAt(s: string, i: int)
    requires 0 <= i && i + 1 < |s|
  {
    IsBlank(s[i]) && IsBlank(s[i + 1])
  }

  /** No space or tab directly followed by another space or tab. */
  predicate NoBlankPair(s: string) {
    forall i :: 0 <= i && i + 1 < |s| ==> !BlankPairAt(s, i)
  }

  lemma NoBlankPairPrefix(s: string, k: nat)
    requires k <= |s| && NoBlankPair(s)
    ensures NoBlankPair(s[..k])
  {
    forall i | 0 <= i && i + 1 < k
      ensures !BlankPairAt(s[..k], i)
    {
      assert !BlankPairAt(s, i);
    }
  }

  lemma NoBlankPairSuffix(s: string, k: nat)
    requires k <= |s| && NoBlankPair(s)
    ensures NoBlankPair(s[k..])
  {
    forall i | 0 <= i && i + 1 < |s| - k
      ensures !BlankPairAt(s[k..], i)
    {
      assert !BlankPairAt(s, i + k);
    }
  }

  lemma NoBlankPairConcat(a: string, b: string)
    requires NoBlankPair(a) && NoBlankPair(b)
    requires !(|a| > 0 && IsBlank(a[|a| - 1]) && |b| > 0 && IsBlank(b[0]))
    ensures NoBlankPair(a + b)
  {
    var s := a + b;
    forall i | 0 <= i && i + 1 < |s|
      ensures !BlankPairAt(s, i)
    {
      if i + 1 < |a| {
        assert !BlankPairAt(a, i);
      } else if i >= |a| {
        assert !BlankPairAt(b, i - |a|);
      } else {
        assert s[i] == a[|a| - 1] && s[i + 1] == b[0];
      }
    }
  }

  // ---- the squeeze ------------------------------------------------------

  lemma SqueezedTail(s: string)
    requires |s| > 0 && IsSqueezed(s)
    ensures IsSqueezed(s[1..])
  {
    forall i | 0 <= i < |s[1..]| && IsSpace(s[1..][i])
      ensures s[1..][i] == ' ' && (i + 1 < |s[1..]| ==> !IsSpace(s[1..][i + 1]))
    {
      assert s[1..][i] == s[i + 1];
    }
  }

  /** In squeezed shape a leading space stands alone, so `lstrip` takes
      exactly that one character. */
  lemma LStripOfSqueezed(s: string)
    requires |s| > 0 && IsSpace(s[0]) && IsSqueezed(s)
    ensures LStrip(s) == s[1..]
  {
    assert s[1..] == [] || !IsSpace(s[1..][0]);
    assert TrimStart(s[1..], IsSpace) == s[1..];
  }

  /** A text already in squeezed shape is left alone by the squeeze. */
  lemma {:induction false} SqueezeFixesSqueezed(s: string)
    requires IsSqueezed(s)
    ensures Squeeze(s) == s
    decreases |s|
  {
    if |s| > 0 {
      SqueezedTail(s);
      SqueezeFixesSqueezed(s[1..]);
      if IsSpace(s[0]) {
        LStripOfSqueezed(s);
      }
      assert [s[0]] + s[1..] == s;
    }
  }

  /** Squeezing twice is squeezing once. */
  lemma SqueezeIdempotent(s: string)
    ensures Squeeze(Squeeze(s)) == Squeeze(s)
  {
    SqueezeFixesSqueezed(Squeeze(s));
  }

  /** Left-stripping a whitespace run off a text that does not itself start
      with whitespace leaves exactly that text. */
  lemma LStripOfSpaceRun(w: string, t: string)
    requires forall i :: 0 <= i < |w| ==> IsSpace(w[i])
    requires t == [] || !IsSpace(t[0])
    ensures LStrip(w + t) == t
  {
    var s := w + t;
    var r := LStrip(s);
    var k := |s| - |r|;
    assert r == [] || r[0] == s[k];
    if |t| > 0 {
      assert s[|w|] == t[0];
    }
    assert k <= |w|;
    assert k >= |w|;
  }

  /** A whitespace run, however long and whatever its characters, becomes
      one space in front of the squeezed rest of the text. */
  lemma SqueezeSpaceRun(w: string, t: string)
    requires |w| > 0 && forall i :: 0 <= i < |w| ==> IsSpace(w[i])
    requires t == [] || !IsSpace(t[0])
    ensures Squeeze(w + t) == " " + Squeeze(t)
  {
    assert (w + t)[0] == w[0];
    LStripOfSpaceRun(w, t);
  }

  /** A character that is not whitespace is kept, in place. */
  lemma SqueezeKeepsSolid(c: char, t: string)
    requires !IsSpace(c)
    ensures Squeeze([c] + t) == [c] + Squeeze(t)
  {
    assert ([c] + t)[1..] == t;
  }

  // ---- lines ------------------------------------------------------------

  /** `'\n'.join(s.split('\n')) == s` */
  lemma {:induction false} JoinLinesOfLines(s: string)
    ensures JoinLines(Lines(s)) == s
    decreases |s|
  {
    if |s| > 0 {
      var rest := Lines(s[1..]);
      JoinLinesOfLines(s[1..]);
      if s[0] == '\n' {
        assert ([""] + rest)[1..] == rest;
        assert JoinLines([""] + rest) == "" + "\n" + JoinLines(rest);
        assert s == "\n" + s[1..];
      } else {
        var ls := [[s[0]] + rest[0]] + rest[1..];
        if |rest| == 1 {
          assert JoinLines(ls) == [s[0]] + rest[0];
          assert JoinLines(rest) == rest[0];
        } else {
          assert ls[1..] == rest[1..];
          assert JoinLines(ls) == [s[0]] + rest[0] + "\n" + JoinLines(rest[1..]);
          assert JoinLines(rest) == rest[0] + "\n" + JoinLines(rest[1..]);
        }
        assert s == [s[0]] + s[1..];
      }
    }
  }

  lemma {:induction false} LinesOfSingleLine(a: string)
    requires '\n' !in a
    ensures Lines(a) == [a]
    decreases |a|
  {
    if |a| > 0 {
      assert '\n' !in a[1..] by {
        forall k | 0 <= k < |a[1..]|
          ensures a[1..][k] != '\n'
        {
          assert a[1..][k] == a[k + 1];
          assert a[k + 1] in a;
        }
      }
      LinesOfSingleLine(a[1..]);
      assert a[0] in a;
      assert [a[0]] + a[1..] == a;
    }
  }

  lemma {:induction false} LinesOfLineThenRest(a: string, b: string)
    requires '\n' !in a
    ensures Lines(a + "\n" + b) == [a] + Lines(b)
    decreases |a|
  {
    var s := a + "\n" + b;
    if |a| == 0 {
      assert s == "\n" + b;
      assert s[1..] == b;
    } else {
      assert '\n' !in a[1..] by {
        forall k | 0 <= k < |a[1..]|
          ensures a[1..][k] != '\n'
        {
          assert a[1..][k] == a[k + 1];
          assert a[k + 1] in a;
        }
      }
      assert s[1..] == a[1..] + "\n" + b;
      LinesOfLineThenRest(a[1..], b);
      assert a[0] in a;
      assert s[0] == a[0];
      assert [a[0]] + a[1..] == a;
    }
  }

  /** `('\n'.join(ls)).split('\n') == ls` when no line holds a newline. */
  lemma {:induction false} LinesOfJoinLines(ls: seq<string>)
    requires |ls| >= 1
    requires forall i :: 0 <= i < |ls| ==> '\n' !in ls[i]
    ensures Lines(JoinLines(ls)) == ls
    decreases |ls|
  {
    if |ls| == 1 {
      LinesOfSingleLine(ls[0]);
    } else {
      LinesOfLineThenRest(ls[0], JoinLines(ls[1..]));
      LinesOfJoinLines(ls[1..]);
      assert [ls[0]] + ls[1..] == ls;
    }
  }

  lemma {:induction false} NewlineCountIsLinesMinusOne(s: string)
    ensures NewlineCount(s) == |Lines(s)| - 1
    decreases |s|
  {
    if |s| > 0 {
      NewlineCountIsLinesMinusOne(s[1..]);
    }
  }

  /** Each line of the indented text is the original line behind one tab. */
  lemma IndentLines(s: string)
    ensures Lines(Indent(s)) == TabEach(Lines(s))
  {
    var ls := TabEach(Lines(s));
    forall i | 0 <= i < |ls|
      ensures '\n' !in ls[i]
    {
      assert ls[i] == "\t" + Lines(s)[i];
      assert '\n' !in Lines(s)[i];
    }
    LinesOfJoinLines(ls);
  }

  /** Indentation adds no line and removes none. */
  lemma IndentKeepsNewlineCount(s: string)
    ensures NewlineCount(Indent(s)) == NewlineCount(s)
  {
    IndentLines(s);
    NewlineCountIsLinesMinusOne(Indent(s));
    NewlineCountIsLinesMinusOne(s);
  }

  lemma {:induction false} JoinLinesNoTriple(ls: seq<string>)
    requires |ls| >= 1
    requires forall i :: 0 <= i < |ls| ==> '\n' !in ls[i] && |ls[i]| > 0
    ensures NoTripleNewline(JoinLines(ls))
    ensures |JoinLines(ls)| > 0 && JoinLines(ls)[0] == ls[0][0]
    decreases |ls|
  {
    NoTripleWithoutNewlines(ls[0]);
    if |ls| > 1 {
      var rest := JoinLines(ls[1..]);
      JoinLinesNoTriple(ls[1..]);
      assert ls[0][|ls[0]| - 1] in ls[0];
      assert NoTripleNewline("\n");
      NoTripleConcat(ls[0], "\n");
      assert ls[1][0] in ls[1];
      NoTripleConcat(ls[0] + "\n", rest);
      assert JoinLines(ls) == ls[0] + "\n" + rest;
    }
  }

  /** The indented text opens with a tab and, since every newline is followed
      by a tab, holds no run of three newlines. */
  lemma IndentShape(s: string)
    ensures |Indent(s)| > 0 && Indent(s)[0] == '\t'
    ensures NoTripleNewline(Indent(s))
  {
    var ls := TabEach(Lines(s));
    forall i | 0 <= i < |ls|
      ensures '\n' !in ls[i] && |ls[i]| > 0
    {
      assert ls[i] == "\t" + Lines(s)[i];
      assert '\n' !in Lines(s)[i];
    }
    JoinLinesNoTriple(ls);
  }
}
