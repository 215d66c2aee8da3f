/** What `_append` guarantees whatever text it is given: committed output is
    never rewritten, visible content is neither lost nor reordered, and the
    join creates neither a third newline in a row nor two adjacent blanks. */
module AppendFacts {
  import opened Text
  import opened TextFacts
  import opened Parser

  /** Only trailing whitespace of the old output is ever rewritten. */
  lemma AppendKeepsCommitted(out: string, text: string)
    ensures IsPrefix(RStrip(out), Append(out, text))
  {
    var r := Append(out, text);
    if |text| > 0 && |out| > 0 && IsSpace(out[|out| - 1]) && IsBlank(text[0]) {
      RStripWithinBlanks(out);
      assert RStripBlanks(out) + text == r;
    } else if |text| > 0 && EndsWithNewline(out) && StartsWithNewline(text) {
      assert RStrip(out) + ("\n\n" + LStripNewlines(text)) == r;
    } else {
      assert out[..|RStrip(out)|] == RStrip(out);
      assert r[..|out|] == out;
    }
  }

  lemma SuffixOfConcat(p: string, t: string)
    ensures IsSuffix(t, p + t)
  {
    assert (p + t)[|p + t| - |t|..] == t;
  }

  lemma SuffixTransitive(a: string, b: string, c: string)
    requires IsSuffix(a, b) && IsSuffix(b, c)
    ensures IsSuffix(a, c)
  {
    assert c[|c| - |a|..] == c[|c| - |b|..][|b| - |a|..];
  }

  /** The appended text survives whole, up to leading newlines the cap drops. */
  lemma AppendKeepsText(out: string, text: string)
    ensures IsSuffix(LStripNewlines(text), Append(out, text))
  {
    var t := LStripNewlines(text);
    assert IsSuffix(t, text);
    if |text| == 0 {
    } else if |out| > 0 && IsSpace(out[|out| - 1]) && IsBlank(text[0]) {
      SuffixOfConcat(RStripBlanks(out), text);
      SuffixTransitive(t, text, Append(out, text));
    } else if EndsWithNewline(out) && StartsWithNewline(text) {
      assert Append(out, text) == (RStrip(out) + "\n\n") + t;
      SuffixOfConcat(RStrip(out) + "\n\n", t);
    } else {
      SuffixOfConcat(out, text);
      SuffixTransitive(t, text, Append(out, text));
    }
  }

  /** The non-whitespace characters of the result are those of the old
      output followed by those of the text. */
  lemma AppendKeepsContent(out: string, text: string)
    ensures Content(Append(out, text)) == Content(out) + Content(text)
  {
    if |text| == 0 {
      assert Content(text) == [];
      assert Content(out) + [] == Content(out);
    } else if |out| > 0 && IsSpace(out[|out| - 1]) && IsBlank(text[0]) {
      var b := RStripBlanks(out);
      assert Append(out, text) == b + text;
      ContentWithoutSpaceTail(out, |b|);
      ContentConcat(b, text);
    } else if EndsWithNewline(out) && StartsWithNewline(text) {
      BreakKeepsContent(out, text);
    } else {
      assert Append(out, text) == out + text;
      ContentConcat(out, text);
    }
  }

  lemma BreakKeepsContent(out: string, text: string)
    requires EndsWithNewline(out) && StartsWithNewline(text)
    ensures Content(RStrip(out) + "\n\n" + LStripNewlines(text)) == Content(out) + Content(text)
  {
    var r := RStrip(out);
    var t := LStripNewlines(text);
    ContentWithoutSpaceTail(out, |r|);
    ContentWithoutSpaceHead(text, |text| - |t|);
    assert Content("\n\n") == [];
    ContentConcat(r, "\n\n");
    ContentConcat(r + "\n\n", t);
    assert Content(r) + [] == Content(r);
  }

  /** Appending a text with no run of three newlines to an output with none
      never creates one: the newline-meets-newline case caps the run. */
  lemma AppendNoTriple(out: string, text: string)
    requires NoTripleNewline(out) && NoTripleNewline(text)
    ensures NoTripleNewline(Append(out, text))
  {
    if |text| == 0 {
    } else if |out| > 0 && IsSpace(out[|out| - 1]) && IsBlank(text[0]) {
      var b := RStripBlanks(out);
      NoTriplePrefix(out, |b|);
      NoTripleConcat(b, text);
    } else if EndsWithNewline(out) && StartsWithNewline(text) {
      var r := RStrip(out);
      var t := LStripNewlines(text);
      NoTriplePrefix(out, |r|);
      NoTripleSuffix(text, |text| - |t|);
      assert NoTripleNewline("\n\n");
      NoTripleConcat(r, "\n\n");
      NoTripleConcat(r + "\n\n", t);
    } else {
      NoTripleConcat(out, text);
    }
  }

  /** No two blanks meet at the join: a blank-led text first trims the
      spaces and tabs the output ends with. */
  lemma AppendNoBlankPair(out: string, text: string)
    requires NoBlankPair(out) && NoBlankPair(text)
    ensures NoBlankPair(Append(out, text))
  {
    if |text| == 0 {
    } else if |out| > 0 && IsSpace(out[|out| - 1]) && IsBlank(text[0]) {
      var b := RStripBlanks(out);
      NoBlankPairPrefix(out, |b|);
      NoBlankPairConcat(b, text);
    } else if EndsWithNewline(out) && StartsWithNewline(text) {
      BreakNoBlankPair(out, text);
    } else {
      NoBlankPairConcat(out, text);
    }
  }

  lemma BreakNoBlankPair(out: string, text: string)
    requires NoBlankPair(out) && NoBlankPair(text)
    ensures NoBlankPair(RStrip(out) + "\n\n" + LStripNewlines(text))
  {
    var r := RStrip(out);
    var t := LStripNewlines(text);
    NoBlankPairPrefix(out, |r|);
    NoBlankPairSuffix(text, |text| - |t|);
    NoBlankPairAroundBreak(r, t);
  }

  lemma NoBlankPairAroundBreak(a: string, b: string)
    requires NoBlankPair(a) && NoBlankPair(b)
    ensures NoBlankPair(a + "\n\n" + b)
  {
    var nn := "\n\n";
    assert !BlankPairAt(nn, 0);
    NoBlankPairConcat(a, nn);
    NoBlankPairConcat(a + nn, b);
  }

  /** A paragraph break leaves some `x + "\n\n"` where `x` strips to what
      the old output strips to. */
  lemma ParagraphBreakShape(out: string)
    ensures var once := Append(out, "\n\n");
            && |once| >= 2
            && once == once[..|once| - 2] + "\n\n"
            && RStrip(once[..|once| - 2]) == RStrip(out)
  {
    var once := Append(out, "\n\n");
    if EndsWithNewline(out) {
      assert once == RStrip(out) + "\n\n";
      assert once[..|once| - 2] == RStrip(out);
      RStripIdempotent(out);
    } else {
      assert once == out + "\n\n";
      assert once[..|once| - 2] == out;
    }
  }

  /** Two paragraph breaks in a row leave exactly the stripped output and
      one blank line, and any further paragraph break changes nothing. */
  lemma ParagraphBreakSettles(out: string)
    ensures Append(Append(out, "\n\n"), "\n\n") == RStrip(out) + "\n\n"
    ensures Append(RStrip(out) + "\n\n", "\n\n") == RStrip(out) + "\n\n"
  {
    var once := Append(out, "\n\n");
    ParagraphBreakShape(out);
    var x := once[..|once| - 2];
    RStripDropsSpaceTail(x, "\n\n");
    assert Append(once, "\n\n") == RStrip(once) + "\n\n";
    var r := RStrip(out);
    RStripDropsSpaceTail(r, "\n\n");
    RStripIdempotent(out);
    assert Append(r + "\n\n", "\n\n") == RStrip(r + "\n\n") + "\n\n";
  }
}
