/** String helpers the converter is built from: Python's whitespace class,
    the `strip` family, the `\s+` squeeze, and splitting/joining on newlines.
    Every function here is total over `string` (a `seq<char>`). */
module Text {

  /** Python's `str.isspace`, which is also what the regular-expression class
      `\s` matches in a `str` pattern: the ASCII controls 0x09-0x0D, the
      separators 0x1C-0x1F, the space, NEL, NBSP, and the Unicode space,
      line and paragraph separators. */
  predicate IsSpace(c: char) {
    var n := c as int;
    || n == 0x20
    || 0x09 <= n <= 0x0D
    || 0x1C <= n <= 0x1F
    || n == 0x85
    || n == 0xA0
    || n == 0x1680
    || 0x2000 <= n <= 0x200A
    || n == 0x2028
    || n == 0x2029
    || n == 0x202F
    || n == 0x205F
    || n == 0x3000
  }

  /** The two characters `rstrip(' \t')` removes. */
  predicate IsBlank(c: char) {
    c == ' ' || c == '\t'
  }

  predicate IsNewline(c: char) {
    c == '\n'
  }

  /** `s.rstrip(chars)` with the stripped characters given by `strip`:
      the longest prefix of `s` that does not end in a stripped character. */
  function TrimEnd(s: string, strip: char -> bool): (r: string)
    ensures |r| <= |s| && r == s[..|r|]
    ensures forall i :: |r| <= i < |s| ==> strip(s[i])
    ensures r == [] || !strip(r[|r| - 1])
    decreases |s|
  {
    if |s| > 0 && strip(s[|s| - 1]) then
      var r := TrimEnd(s[..|s| - 1], strip);
      assert s[..|s| - 1][..|r|] == s[..|r|];
      r
    else s
  }

  /** `s.lstrip(chars)` with the stripped characters given by `strip`:
      the longest suffix of `s` that does not start with a stripped character. */
  function TrimStart(s: string, strip: char -> bool): (r: string)
    ensures |r| <= |s| && r == s[|s| - |r|..]
    ensures forall i :: 0 <= i < |s| - |r| ==> strip(s[i])
    ensures r == [] || !strip(r[0])
    ensures |s| > 0 && strip(s[0]) ==> |r| < |s|
    decreases |s|
  {
    if |s| > 0 && strip(s[0]) then
      var r := TrimStart(s[1..], strip);
      TrimStartStep(s, r, strip);
      r
    else s
  }

  /** One more stripped character in front keeps `r` the stripped suffix. */
  lemma TrimStartStep(s: string, r: string, strip: char -> bool)
    requires |s| > 0 && strip(s[0])
    requires |r| <= |s| - 1 && r == s[1..][|s| - 1 - |r|..]
    requires forall i :: 0 <= i < |s| - 1 - |r| ==> strip(s[1..][i])
    ensures r == s[|s| - |r|..]
    ensures forall i :: 0 <= i < |s| - |r| ==> strip(s[i])
  {
    forall i | 1 <= i < |s| - |r|
      ensures strip(s[i])
    {
      assert s[i] == s[1..][i - 1];
    }
  }

  /** `s.rstrip()` */
  function RStrip(s: string): string {
    TrimEnd(s, IsSpace)
  }

  /** `s.rstrip(' \t')` */
  function RStripBlanks(s: string): string {
    TrimEnd(s, IsBlank)
  }

  /** `s.lstrip()` */
  function LStrip(s: string): string {
    TrimStart(s, IsSpace)
  }

  /** `s.lstrip('\n')` */
  function LStripNewlines(s: string): string {
    TrimStart(s, IsNewline)
  }

  /** `p` starts `s`; used for strings and for parser stacks alike. */
  predicate IsPrefix<T(==)>(p: seq<T>, s: seq<T>) {
    |p| <= |s| && s[..|p|] == p
  }

  predicate IsSuffix<T(==)>(p: seq<T>, s: seq<T>) {
    |p| <= |s| && s[|s| - |p|..] == p
  }

  /** The characters of `s` that are not whitespace, in order: the visible
      content of a text, which whitespace rewriting must not change. */
  function Content(s: string): (r: string)
    ensures |r| <= |s|
    ensures forall i :: 0 <= i < |r| ==> !IsSpace(r[i])
  {
    if |s| == 0 then [] else (if IsSpace(s[0]) then [] else [s[0]]) + Content(s[1..])
  }

  /** A text in the shape `re.sub(r'\s+', ' ', ...)` produces: the only
      whitespace character is the space, and no two of them are adjacent. */
  predicate IsSqueezed(s: string) {
    forall i :: 0 <= i < |s| && IsSpace(s[i]) ==>
      s[i] == ' ' && (i + 1 < |s| ==> !IsSpace(s[i + 1]))
  }

  /** `re.sub(r'\s+', ' ', s)`: each maximal run of whitespace becomes one
      space; everything else is kept in place. */
  function Squeeze(s: string): (r: string)
    ensures IsSqueezed(r)
    ensures Content(r) == Content(s)
    ensures |r| == 0 <==> |s| == 0
    ensures |s| > 0 ==> (IsSpace(r[0]) <==> IsSpace(s[0]))
    ensures |s| > 0 && !IsSpace(s[0]) ==> r[0] == s[0]
    decreases |s|
  {
    if |s| == 0 then []
    else if IsSpace(s[0]) then
      ContentSkipsLeadingSpace(s);
      " " + Squeeze(LStrip(s))
    else
      [s[0]] + Squeeze(s[1..])
  }

  lemma ContentSkipsLeadingSpace(s: string)
    ensures Content(LStrip(s)) == Content(s)
  {
    var r := LStrip(s);
    var k := |s| - |r|;
    assert s == s[..k] + r;
    ContentConcat(s[..k], r);
    ContentOfSpaces(s[..k]);
  }

  lemma {:induction false} ContentConcat(a: string, b: string)
    ensures Content(a + b) == Content(a) + Content(b)
    decreases |a|
  {
    if |a| == 0 {
      assert a + b == b;
    } else {
      assert (a + b)[1..] == a[1..] + b;
      ContentConcat(a[1..], b);
    }
  }

  lemma {:induction false} ContentOfSpaces(s: string)
    requires forall i :: 0 <= i < |s| ==> IsSpace(s[i])
    ensures Content(s) == []
    decreases |s|
  {
    if |s| > 0 {
      ContentOfSpaces(s[1..]);
    }
  }

  lemma ContentSplit(s: string, k: nat)
    requires k <= |s|
    ensures Content(s) == Content(s[..k]) + Content(s[k..])
  {
    assert s == s[..k] + s[k..];
    ContentConcat(s[..k], s[k..]);
  }

  /** Cutting a whitespace-only tail off a text keeps its content. */
  lemma ContentWithoutSpaceTail(s: string, k: nat)
    requires k <= |s|
    requires forall i :: k <= i < |s| ==> IsSpace(s[i])
    ensures Content(s[..k]) == Content(s)
  {
    var tail := s[k..];
    forall i | 0 <= i < |tail|
      ensures IsSpace(tail[i])
    {
      assert tail[i] == s[k + i];
    }
    ContentOfSpaces(tail);
    ContentSplit(s, k);
    assert Content(s[..k]) + [] == Content(s[..k]);
  }

  /** Cutting a whitespace-only head off a text keeps its content. */
  lemma ContentWithoutSpaceHead(s: string, k: nat)
    requires k <= |s|
    requires forall i :: 0 <= i < k ==> IsSpace(s[i])
    ensures Content(s[k..]) == Content(s)
  {
    var head := s[..k];
    forall i | 0 <= i < |head|
      ensures IsSpace(head[i])
    {
      assert head[i] == s[i];
    }
    ContentOfSpaces(head);
    ContentSplit(s, k);
    assert [] + Content(s[k..]) == Content(s[k..]);
  }

  /** `s.split('\n')`: the pieces between newlines, at least one, none of
      which contains a newline. */
  function Lines(s: string): (r: seq<string>)
    ensures |r| >= 1
    ensures forall i :: 0 <= i < |r| ==> '\n' !in r[i]
    decreases |s|
  {
    if |s| == 0 then [""]
    else
      var rest := Lines(s[1..]);
      if s[0] == '\n' then [""] + rest
      else [[s[0]] + rest[0]] + rest[1..]
  }

  /** `'\n'.join(ls)` */
  function JoinLines(ls: seq<string>): string
    decreases |ls|
  {
    if |ls| == 0 then ""
    else if |ls| == 1 then ls[0]
    else ls[0] + "\n" + JoinLines(ls[1..])
  }

  /** `['\t' + line for line in ls]` */
  function TabEach(ls: seq<string>): (r: seq<string>)
    ensures |r| == |ls|
    ensures forall i :: 0 <= i < |ls| ==> r[i] == "\t" + ls[i]
  {
    seq(|ls|, i requires 0 <= i < |ls| => "\t" + ls[i])
  }

  /** The pre-formatted path's indentation: one tab in front of every line. */
  function Indent(s: string): string {
    JoinLines(TabEach(Lines(s)))
  }

  function NewlineCount(s: string): nat
    decreases |s|
  {
    if |s| == 0 then 0 else (if s[0] == '\n' then 1 else 0) + NewlineCount(s[1..])
  }

  predicate TripleAt(s: string, i: int)
    requires 0 <= i && i + 2 < |s|
  {
    s[i] == '\n' && s[i + 1] == '\n' && s[i + 2] == '\n'
  }

  /** No run of three or more newlines: at most one blank line in a row. */
  predicate NoTripleNewline(s: string) {
    forall i :: 0 <= i && i + 2 < |s| ==> !TripleAt(s, i)
  }

  predicate EndsWithNewline(s: string) {
    |s| > 0 && s[|s| - 1] == '\n'
  }

  predicate StartsWithNewline(s: string) {
    |s| > 0 && s[0] == '\n'
  }
}
