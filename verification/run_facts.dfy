/** Properties of the handlers and of feeding a whole event sequence: the
    data paths, the stack discipline, suppression of `div.right` and
    `div.sidebar` subtrees, and the output invariants the fold keeps. */
module RunFacts {
  import opened Text
  import opened TextFacts
  import opened Parser
  import opened AppendFacts

  // ---- data paths -------------------------------------------------------

  /** The chunk the generic path appends: no leading whitespace, no
      whitespace but isolated single spaces, and the visible content of the
      data. */
  lemma GenericChunkShape(text: string)
    ensures var chunk := Squeeze(LStrip(text));
            && IsSqueezed(chunk)
            && (chunk == [] || !IsSpace(chunk[0]))
            && Content(chunk) == Content(text)
  {
    ContentSkipsLeadingSpace(text);
    var d := LStrip(text);
    if |d| > 0 {
      assert !IsSpace(d[0]);
    }
  }

  /** Data is left-stripped before the lone-space test, so the test at the
      end of the generic path never holds and never drops anything. */
  lemma LoneSpaceGuardIsDead(text: string)
    ensures Squeeze(LStrip(text)) != " "
  {
    GenericChunkShape(text);
  }

  /** Inside `pre` or `code` the left-stripped data is appended untouched but
      for one tab in front of each of its lines; no line is added or lost. */
  lemma PreformattedDataChunk(s: State, text: string)
    requires !s.ignore && TopTag(s) != "h0"
    requires s.insidePre || TopTag(s) == "code"
    ensures var r := Step(s, Data(text)).out;
            && IsPrefix(s.out, r)
            && Lines(r[|s.out|..]) == TabEach(Lines(LStrip(text)))
            && NewlineCount(r[|s.out|..]) == NewlineCount(LStrip(text))
  {
    var r := Step(s, Data(text)).out;
    assert r == s.out + Indent(LStrip(text));
    assert r[|s.out|..] == Indent(LStrip(text));
    IndentLines(LStrip(text));
    IndentKeepsNewlineCount(LStrip(text));
  }

  // ---- tag dispatch ---------------------------------------------------

  /** A start tag other than `a`, `br`, `code`, `li`, `pre` and a
      suppressing `div` only pushes its frame. */
  lemma OtherStartTagIsSilent(s: State, tag: string, attrs: seq<Attr>)
    requires tag !in {"a", "br", "code", "li", "pre"}
    requires !(tag == "div" && IsSuppressing(attrs))
    ensures Step(s, StartTag(tag, attrs)) == s.(stack := s.stack + [Frame(tag, attrs)])
  {
  }

  /** An end tag other than `p`, `div`, `a`, `li`, `ul`, `ol`, `code` and
      `pre` only pops the innermost frame, if there is one. */
  lemma OtherEndTagIsSilent(s: State, tag: string)
    requires tag !in {"p", "div", "a", "li", "ul", "ol", "code", "pre"}
    ensures Step(s, EndTag(tag)) ==
              s.(stack := if |s.stack| > 0 then s.stack[..|s.stack| - 1] else [])
  {
  }

  // ---- one step ---------------------------------------------------------

  lemma SqueezedHasNoNewline(s: string)
    requires IsSqueezed(s)
    ensures '\n' !in s
  {
    forall i | 0 <= i < |s|
      ensures s[i] != '\n'
    {
      if IsSpace(s[i]) {
        assert s[i] == ' ';
      }
    }
  }

  lemma PrefixOfRStrip(s: string)
    ensures IsPrefix(RStrip(s), s)
  {
    assert s[..|RStrip(s)|] == RStrip(s);
  }

  lemma CommittedPrefixOfExtension(a: string, b: string)
    ensures IsPrefix(RStrip(a), a + b)
  {
    assert (a + b)[..|RStrip(a)|] == a[..|RStrip(a)|];
  }

  lemma RawDataKeepsCommitted(s: State, text: string)
    requires !s.ignore && TopTag(s) != "h0" && (s.insidePre || TopTag(s) == "code")
    ensures IsPrefix(RStrip(s.out), HandleData(s, text).out)
  {
    CommittedPrefixOfExtension(s.out, Indent(LStrip(text)));
  }

  lemma GenericDataKeepsCommitted(s: State, text: string)
    requires !s.ignore && !s.insidePre && TopTag(s) !in {"h0", "code", "pre", "script"}
    ensures IsPrefix(RStrip(s.out), HandleData(s, text).out)
  {
    AppendKeepsCommitted(s.out, Squeeze(LStrip(text)));
  }

  lemma DataKeepsCommitted(s: State, text: string)
    ensures IsPrefix(RStrip(s.out), HandleData(s, text).out)
  {
    PrefixOfRStrip(s.out);
    if s.ignore || TopTag(s) == "h0" {
    } else if s.insidePre || TopTag(s) == "code" {
      RawDataKeepsCommitted(s, text);
    } else if TopTag(s) == "pre" {
      AppendKeepsCommitted(s.out, "\n");
    } else if TopTag(s) == "script" {
    } else {
      GenericDataKeepsCommitted(s, text);
    }
  }

  /** Each step rewrites at most the trailing whitespace of the output. */
  lemma StepKeepsCommitted(s: State, e: Event)
    ensures IsPrefix(RStrip(s.out), Step(s, e).out)
  {
    PrefixOfRStrip(s.out);
    match e
    case StartTag(tag, attrs) =>
      AppendKeepsCommitted(s.out, OpenMarker(tag));
    case EndTag(tag) =>
      AppendKeepsCommitted(s.out, CloseMarker(tag));
    case Data(text) =>
      DataKeepsCommitted(s, text);
  }

  /** Each step keeps the output free of runs of three newlines. */
  lemma StepNoTriple(s: State, e: Event)
    requires NoTripleNewline(s.out)
    ensures NoTripleNewline(Step(s, e).out)
  {
    match e
    case StartTag(tag, attrs) =>
      assert NoTripleNewline(OpenMarker(tag)) by {
        if tag == "li" {
          assert '\n' !in Bullet;
          NoTripleWithoutNewlines(Bullet);
        }
      }
      AppendNoTriple(s.out, OpenMarker(tag));
    case EndTag(tag) =>
      assert NoTripleNewline(CloseMarker(tag));
      AppendNoTriple(s.out, CloseMarker(tag));
    case Data(text) =>
      var d := LStrip(text);
      var chunk := Squeeze(d);
      SqueezedHasNoNewline(chunk);
      NoTripleWithoutNewlines(chunk);
      AppendNoTriple(s.out, chunk);
      assert NoTripleNewline("\n");
      AppendNoTriple(s.out, "\n");
      IndentShape(d);
      NoTripleConcat(s.out, Indent(d));
  }

  // ---- the fold ---------------------------------------------------------

  /** Feeding two event lists one after the other is feeding their
      concatenation. */
  lemma {:induction false} RunConcat(s: State, a: seq<Event>, b: seq<Event>)
    ensures Run(s, a + b) == Run(Run(s, a), b)
    decreases |a|
  {
    if |a| == 0 {
      assert a + b == b;
    } else {
      assert (a + b)[0] == a[0];
      assert (a + b)[1..] == a[1..] + b;
      RunConcat(Step(s, a[0]), a[1..], b);
    }
  }

  /** Output once followed by non-whitespace is never changed again by any
      later event. */
  lemma {:induction false} RunKeepsCommitted(s: State, events: seq<Event>)
    ensures IsPrefix(RStrip(s.out), Run(s, events).out)
    decreases |events|
  {
    if |events| == 0 {
      PrefixOfRStrip(s.out);
    } else {
      var s1 := Step(s, events[0]);
      StepKeepsCommitted(s, events[0]);
      RunKeepsCommitted(s1, events[1..]);
      CommittedTransitive(s.out, s1.out, Run(s1, events[1..]).out);
    }
  }

  /** Committed output of `a`, kept in `b`, is committed output of `b`. */
  lemma CommittedTransitive(a: string, b: string, c: string)
    requires IsPrefix(RStrip(a), b) && IsPrefix(RStrip(b), c)
    ensures IsPrefix(RStrip(a), c)
  {
    var p := RStrip(a);
    assert b == p + b[|p|..];
    RStripKeepsSolidPrefix(p, b[|p|..]);
    var q := RStrip(b);
    assert c[..|q|] == q;
    assert q[..|p|] == p;
    assert c[..|p|] == p;
  }

  /** The output never holds three newlines in a row, whatever the events. */
  lemma {:induction false} RunNoTriple(s: State, events: seq<Event>)
    requires NoTripleNewline(s.out)
    ensures NoTripleNewline(Run(s, events).out)
    decreases |events|
  {
    if |events| > 0 {
      StepNoTriple(s, events[0]);
      RunNoTriple(Step(s, events[0]), events[1..]);
    }
  }

  // ---- stack discipline -------------------------------------------------

  /** How an event changes the nesting depth of the markup. */
  function Delta(e: Event): int {
    match e
    case StartTag(_, _) => 1
    case EndTag(_) => -1
    case Data(_) => 0
  }

  /** Opened minus closed elements over an event list. */
  function Depth(events: seq<Event>): int
    decreases |events|
  {
    if |events| == 0 then 0 else Delta(events[0]) + Depth(events[1..])
  }

  /** A well-nested event list: it never closes more than it opened, and it
      closes everything it opened. */
  predicate Balanced(events: seq<Event>) {
    && Depth(events) == 0
    && forall k :: 0 <= k <= |events| ==> Depth(events[..k]) >= 0
  }

  lemma DepthOfPrefixAfterFirst(events: seq<Event>, k: nat)
    requires 0 < |events| && k < |events|
    ensures Depth(events[..k + 1]) == Delta(events[0]) + Depth(events[1..][..k])
  {
    assert events[..k + 1][0] == events[0];
    assert events[..k + 1][1..] == events[1..][..k];
  }

  /** As long as the markup never closes below `base`, the stack grows and
      shrinks exactly with the nesting depth and `base` stays at its bottom. */
  lemma {:induction false} StackTracksDepth(s: State, events: seq<Event>, base: seq<Frame>)
    requires IsPrefix(base, s.stack)
    requires forall k :: 0 <= k <= |events| ==> |s.stack| + Depth(events[..k]) >= |base|
    ensures |Run(s, events).stack| == |s.stack| + Depth(events)
    ensures IsPrefix(base, Run(s, events).stack)
    decreases |events|
  {
    if |events| > 0 {
      var e := events[0];
      var rest := events[1..];
      var s1 := Step(s, e);
      DepthOfPrefixAfterFirst(events, 0);
      assert events[1..][..0] == [];
      assert |s.stack| + Delta(e) >= |base|;
      assert |s1.stack| == |s.stack| + Delta(e);
      assert IsPrefix(base, s1.stack) by {
        if e.StartTag? {
          assert s1.stack[..|base|] == s.stack[..|base|];
        } else if e.EndTag? {
          assert s1.stack == s.stack[..|s.stack| - 1];
          assert s1.stack[..|base|] == s.stack[..|base|];
        }
      }
      forall k | 0 <= k <= |rest|
        ensures |s1.stack| + Depth(rest[..k]) >= |base|
      {
        DepthOfPrefixAfterFirst(events, k);
      }
      StackTracksDepth(s1, rest, base);
    }
  }

  /** A well-nested event list leaves the stack as it found it. */
  lemma BalancedKeepsStack(s: State, events: seq<Event>)
    requires Balanced(events)
    ensures Run(s, events).stack == s.stack
  {
    StackTracksDepth(s, events, s.stack);
    assert Run(s, events).stack[..|s.stack|] == s.stack;
  }

  // ---- suppression ------------------------------------------------------

  predicate OpensSuppressing(e: Event) {
    e.StartTag? && IsSuppressing(e.attrs)
  }

  /** While suppressed, and as long as no frame that could end suppression
      is popped, nothing is written and `pre` mode does not change. */
  lemma {:induction false} SuppressedRun(s: State, events: seq<Event>, base: seq<Frame>)
    requires s.ignore
    requires IsPrefix(base, s.stack)
    requires forall i :: |base| <= i < |s.stack| ==> !IsSuppressing(s.stack[i].attrs)
    requires forall k :: 0 <= k <= |events| ==> |s.stack| + Depth(events[..k]) >= |base|
    requires forall i :: 0 <= i < |events| ==> !OpensSuppressing(events[i])
    ensures Run(s, events).ignore
    ensures Run(s, events).out == s.out
    ensures Run(s, events).insidePre == s.insidePre
    decreases |events|
  {
    if |events| > 0 {
      var e := events[0];
      var rest := events[1..];
      var s1 := Step(s, e);
      DepthOfPrefixAfterFirst(events, 0);
      assert events[1..][..0] == [];
      assert !OpensSuppressing(e);
      assert s1.ignore;
      assert IsPrefix(base, s1.stack) by {
        if e.StartTag? {
          assert s1.stack[..|base|] == s.stack[..|base|];
        } else if e.EndTag? {
          assert s1.stack[..|base|] == s.stack[..|base|];
        }
      }
      assert forall i :: |base| <= i < |s1.stack| ==> !IsSuppressing(s1.stack[i].attrs) by {
        if e.StartTag? {
          assert forall i :: |base| <= i < |s.stack| ==> s1.stack[i] == s.stack[i];
        }
      }
      forall k | 0 <= k <= |rest|
        ensures |s1.stack| + Depth(rest[..k]) >= |base|
      {
        DepthOfPrefixAfterFirst(events, k);
      }
      forall i | 0 <= i < |rest|
        ensures !OpensSuppressing(rest[i])
      {
        assert rest[i] == events[i + 1];
      }
      SuppressedRun(s1, rest, base);
    }
  }

  /** A `div.right` or `div.sidebar` subtree whose markup is well nested and
      opens no further suppressing element writes nothing: the whole subtree
      amounts to the paragraph break its closing `</div>` appends. */
  lemma SuppressedSubtree(s: State, attrs: seq<Attr>, inner: seq<Event>)
    requires IsSuppressing(attrs)
    requires Balanced(inner)
    requires forall i :: 0 <= i < |inner| ==> !OpensSuppressing(inner[i])
    ensures Run(s, [StartTag("div", attrs)] + inner + [EndTag("div")])
            == State(Append(s.out, "\n\n"), s.stack, s.insidePre, false)
  {
    var s1 := Step(s, StartTag("div", attrs));
    assert Run(s, [StartTag("div", attrs)]) == s1;
    assert s1 == State(s.out, s.stack + [Frame("div", attrs)], s.insidePre, true);
    forall k | 0 <= k <= |inner|
      ensures |s1.stack| + Depth(inner[..k]) >= |s1.stack|
    {
    }
    SuppressedRun(s1, inner, s1.stack);
    BalancedKeepsStack(s1, inner);
    var s2 := Run(s1, inner);
    assert s2 == s1;
    var s3 := Step(s2, EndTag("div"));
    assert s2.stack[..|s2.stack| - 1] == s.stack;
    assert Run(s2, [EndTag("div")]) == s3;
    RunConcat(s, [StartTag("div", attrs)], inner);
    RunConcat(s, [StartTag("div", attrs)] + inner, [EndTag("div")]);
  }

  /** Feeding one event and then the rest is feeding them all. */
  lemma RunCons(s: State, e: Event, rest: seq<Event>)
    ensures Run(s, [e] + rest) == Run(Step(s, e), rest)
  {
    assert ([e] + rest)[0] == e;
    assert ([e] + rest)[1..] == rest;
  }

  /** Opening a suppressing `div` while writing only pushes and suppresses. */
  lemma OpenSuppressing(s: State, attrs: seq<Attr>, rest: seq<Event>)
    requires !s.ignore && IsSuppressing(attrs)
    ensures Run(s, [StartTag("div", attrs)] + rest) ==
            Run(State(s.out, s.stack + [Frame("div", attrs)], s.insidePre, true), rest)
  {
    RunCons(s, StartTag("div", attrs), rest);
    assert OpenMarker("div") == "";
    assert Step(s, StartTag("div", attrs)) == State(s.out, s.stack + [Frame("div", attrs)], s.insidePre, true);
  }

  /** While writing, a start tag outside the dispatch table only pushes its
      frame. */
  lemma SilentStart(s: State, tag: string, attrs: seq<Attr>, rest: seq<Event>)
    requires !s.ignore && tag !in {"a", "br", "code", "li", "pre"}
    requires !(tag == "div" && IsSuppressing(attrs))
    ensures Run(s, [StartTag(tag, attrs)] + rest) ==
            Run(State(s.out, s.stack + [Frame(tag, attrs)], s.insidePre, false), rest)
  {
    RunCons(s, StartTag(tag, attrs), rest);
    OtherStartTagIsSilent(s, tag, attrs);
  }

  /** While suppressed, a start tag only pushes its frame. */
  lemma StartWhileSuppressed(s: State, tag: string, attrs: seq<Attr>, rest: seq<Event>)
    requires s.ignore
    ensures Run(s, [StartTag(tag, attrs)] + rest) ==
            Run(State(s.out, s.stack + [Frame(tag, attrs)], s.insidePre, true), rest)
  {
    RunCons(s, StartTag(tag, attrs), rest);
  }

  /** While suppressed, data changes nothing. */
  lemma DataWhileSuppressed(s: State, text: string, rest: seq<Event>)
    requires s.ignore
    ensures Run(s, [Data(text)] + rest) == Run(s, rest)
  {
    RunCons(s, Data(text), rest);
  }

  /** While suppressed, an end tag that does not close a suppressing `div`
      only pops a frame. */
  lemma EndWhileSuppressed(s: State, tag: string, rest: seq<Event>)
    requires s.ignore && |s.stack| > 0
    requires !(tag == "div" && IsSuppressing(s.stack[|s.stack| - 1].attrs))
    ensures Run(s, [EndTag(tag)] + rest) ==
            Run(State(s.out, s.stack[..|s.stack| - 1], s.insidePre, true), rest)
  {
    RunCons(s, EndTag(tag), rest);
  }

  /** `</div>` over a suppressing frame pops it, ends suppression and
      appends a paragraph break. */
  lemma CloseSuppressing(s: State, rest: seq<Event>)
    requires |s.stack| > 0 && IsSuppressing(s.stack[|s.stack| - 1].attrs)
    ensures Run(s, [EndTag("div")] + rest) ==
            Run(State(Append(s.out, "\n\n"), s.stack[..|s.stack| - 1], s.insidePre, false), rest)
  {
    RunCons(s, EndTag("div"), rest);
  }

  /** A suppressing `div` opened while suppressed is still pushed, and its
      `</div>` ends suppression with a paragraph break. */
  lemma SuppressorEndsSuppression(s: State, attrs: seq<Attr>, rest: seq<Event>)
    requires s.ignore && IsSuppressing(attrs)
    ensures Run(s, [StartTag("div", attrs), EndTag("div")] + rest)
            == Run(State(Append(s.out, "\n\n"), s.stack, s.insidePre, false), rest)
  {
    var t1 := [EndTag("div")] + rest;
    assert [StartTag("div", attrs), EndTag("div")] + rest == [StartTag("div", attrs)] + t1;
    var s1 := State(s.out, s.stack + [Frame("div", attrs)], s.insidePre, true);
    StartWhileSuppressed(s, "div", attrs, t1);
    assert s1.stack[..|s1.stack| - 1] == s.stack;
    CloseSuppressing(s1, rest);
  }

  /** Once a void element has shifted the stack, the `</div>` that closes a
      plain `div` can pop the frame of a `div.right` inside it, and that ends
      suppression. Here `</mid>` pops the void element's frame, the
      `div.right`'s own `</div>` pops the frame of `mid` and does not end
      suppression, and the `</div>` of the outer plain `div` pops the
      `div.right` frame and ends it, leaving the plain frame open. */
  lemma MisalignedDivEndsSuppression(s: State, a: seq<Attr>, right: seq<Attr>, mid: string,
                                     ma: seq<Attr>, void: string, va: seq<Attr>,
                                     rest: seq<Event>)
    requires !s.ignore && !IsSuppressing(a) && IsSuppressing(right)
    requires !IsSuppressing(ma) && !IsSuppressing(va)
    ensures Run(s, [StartTag("div", a), StartTag("div", right), StartTag(mid, ma),
                    StartTag(void, va), EndTag(mid), EndTag("div"), EndTag("div")] + rest)
            == Run(State(Append(s.out, "\n\n"), s.stack + [Frame("div", a)], s.insidePre, false), rest)
  {
    var t6 := [EndTag("div")] + rest;
    var t5 := [EndTag("div")] + t6;
    var t4 := [EndTag(mid)] + t5;
    var t3 := [StartTag(void, va)] + t4;
    var t2 := [StartTag(mid, ma)] + t3;
    var t1 := [StartTag("div", right)] + t2;
    assert [StartTag("div", a), StartTag("div", right), StartTag(mid, ma),
            StartTag(void, va), EndTag(mid), EndTag("div"), EndTag("div")] + rest
           == [StartTag("div", a)] + t1;
    var s1 := State(s.out, s.stack + [Frame("div", a)], s.insidePre, false);
    var s2 := State(s.out, s1.stack + [Frame("div", right)], s.insidePre, true);
    var s3 := State(s.out, s2.stack + [Frame(mid, ma)], s.insidePre, true);
    var s4 := State(s.out, s3.stack + [Frame(void, va)], s.insidePre, true);
    SilentStart(s, "div", a, t1);
    OpenSuppressing(s1, right, t2);
    StartWhileSuppressed(s2, mid, ma, t3);
    StartWhileSuppressed(s3, void, va, t4);
    assert s4.stack[..|s4.stack| - 1] == s3.stack;
    EndWhileSuppressed(s4, mid, t5);
    assert s3.stack[..|s3.stack| - 1] == s2.stack;
    EndWhileSuppressed(s3, "div", t6);
    assert s2.stack[..|s2.stack| - 1] == s1.stack;
    CloseSuppressing(s2, rest);
  }

  /** As written, any `</div>` over a suppressing frame ends suppression,
      even one nested in another suppressing `div` that is still open. */
  lemma NestedSuppressionEnds(s: State, outer: seq<Attr>, inner: seq<Attr>, rest: seq<Event>)
    requires !s.ignore && IsSuppressing(outer) && IsSuppressing(inner)
    ensures Run(s, [StartTag("div", outer), StartTag("div", inner), EndTag("div")] + rest)
            == Run(State(Append(s.out, "\n\n"), s.stack + [Frame("div", outer)], s.insidePre, false), rest)
  {
    var t2 := [EndTag("div")] + rest;
    var t1 := [StartTag("div", inner)] + t2;
    assert [StartTag("div", outer), StartTag("div", inner), EndTag("div")] + rest
           == [StartTag("div", outer)] + t1;
    var s1 := State(s.out, s.stack + [Frame("div", outer)], s.insidePre, true);
    var s2 := State(s.out, s1.stack + [Frame("div", inner)], s.insidePre, true);
    OpenSuppressing(s, outer, t1);
    StartWhileSuppressed(s1, "div", inner, t2);
    assert s2.stack[..|s2.stack| - 1] == s1.stack;
    CloseSuppressing(s2, rest);
  }

  /** As written, the text that follows a nested suppressing `div` inside
      an outer `div.sidebar` is written out. */
  lemma NestedSuppressionLeaks()
    ensures var sidebar := [Attr("class", Some("sidebar"))];
            var right := [Attr("class", Some("right"))];
            var r := Run(Init, [StartTag("div", sidebar), StartTag("div", right), EndTag("div"), Data("leak")]);
            && r.out == "\n\nleak"
            && r.stack == [Frame("div", sidebar)]
            && !r.ignore
  {
    var sidebar := [Attr("class", Some("sidebar"))];
    var right := [Attr("class", Some("right"))];
    assert GetAttr(sidebar, "class") == Some("sidebar");
    assert GetAttr(right, "class") == Some("right");
    LeakIsWord("leak");
    NestedSuppressionWritesWord(Init, sidebar, right, "leak");
    assert Append("", "\n\n") == "\n\n";
    assert Init.stack + [Frame("div", sidebar)] == [Frame("div", sidebar)];
  }

  /** A word that follows a nested suppressing `div`, directly inside the
      outer one, is written after the inner one's paragraph break. */
  lemma NestedSuppressionWritesWord(s: State, outer: seq<Attr>, inner: seq<Attr>, w: string)
    requires !s.ignore && !s.insidePre && IsSuppressing(outer) && IsSuppressing(inner)
    requires |w| > 0 && forall i :: 0 <= i < |w| ==> !IsSpace(w[i])
    ensures Run(s, [StartTag("div", outer), StartTag("div", inner), EndTag("div"), Data(w)])
            == State(Append(s.out, "\n\n") + w, s.stack + [Frame("div", outer)], false, false)
  {
    var events := [StartTag("div", outer), StartTag("div", inner), EndTag("div"), Data(w)];
    assert events == [StartTag("div", outer), StartTag("div", inner), EndTag("div")] + [Data(w)];
    NestedSuppressionEnds(s, outer, inner, [Data(w)]);
    var s3 := State(Append(s.out, "\n\n"), s.stack + [Frame("div", outer)], false, false);
    assert TopTag(s3) == "div";
    WordData(s3, w);
  }

  /** On the generic path a single word is appended as it is. */
  lemma WordData(s: State, w: string)
    requires !s.ignore && !s.insidePre && TopTag(s) !in {"h0", "code", "pre", "script"}
    requires |w| > 0 && forall i :: 0 <= i < |w| ==> !IsSpace(w[i])
    ensures Run(s, [Data(w)]) == s.(out := s.out + w)
  {
    WordChunk(w);
    AppendWord(s.out, w);
    RunCons(s, Data(w), []);
    assert [Data(w)] + [] == [Data(w)];
  }

  /** `html.parser` reports no end tag for a void element written without a
      slash, such as `<br>`, so its frame stays open. Inside a suppressing
      `div` the closing `</div>` then pops that frame instead, and
      suppression goes on. Once an end tag other than `</div>` pops the
      suppressing frame, suppression ends only at a `</div>` that pops a
      frame whose first `class` is `right` or `sidebar`. Usually that is the
      `</div>` of a later `div.right` or `div.sidebar`
      (`SuppressorEndsSuppression`); with the stack shifted it can also be
      the `</div>` of an enclosing element (`MisalignedDivEndsSuppression`).
      Everything before that `</div>` is lost. */
  lemma VoidElementOutlivesSuppressor(s: State, attrs: seq<Attr>, void: string, va: seq<Attr>,
                                      tag: string, ta: seq<Attr>, text: string, outer: string,
                                      rest: seq<Event>)
    requires !s.ignore && IsSuppressing(attrs) && !IsSuppressing(va) && !IsSuppressing(ta)
    requires outer != "div"
    ensures Run(s, [StartTag("div", attrs), StartTag(void, va), EndTag("div"),
                    StartTag(tag, ta), Data(text), EndTag(tag), EndTag(outer)] + rest)
            == Run(s.(ignore := true), rest)
  {
    var t6 := [EndTag(outer)] + rest;
    var t5 := [EndTag(tag)] + t6;
    var t4 := [Data(text)] + t5;
    var t3 := [StartTag(tag, ta)] + t4;
    var t2 := [EndTag("div")] + t3;
    var t1 := [StartTag(void, va)] + t2;
    assert [StartTag("div", attrs), StartTag(void, va), EndTag("div"),
            StartTag(tag, ta), Data(text), EndTag(tag), EndTag(outer)] + rest
           == [StartTag("div", attrs)] + t1;
    var s1 := State(s.out, s.stack + [Frame("div", attrs)], s.insidePre, true);
    var s2 := State(s.out, s1.stack + [Frame(void, va)], s.insidePre, true);
    var s4 := State(s.out, s1.stack + [Frame(tag, ta)], s.insidePre, true);
    OpenSuppressing(s, attrs, t1);
    StartWhileSuppressed(s1, void, va, t2);
    assert s2.stack[..|s2.stack| - 1] == s1.stack;
    EndWhileSuppressed(s2, "div", t3);
    StartWhileSuppressed(s1, tag, ta, t4);
    DataWhileSuppressed(s4, text, t5);
    assert s4.stack[..|s4.stack| - 1] == s1.stack;
    EndWhileSuppressed(s4, tag, t6);
    assert s1.stack[..|s1.stack| - 1] == s.stack;
    EndWhileSuppressed(s1, outer, rest);
  }

  /** A `<br>` inside a `div.sidebar` keeps the page suppressed past the
      sidebar's end: the paragraph after it never reaches the output. */
  lemma VoidElementKeepsSuppression()
    ensures var sidebar := [Attr("class", Some("sidebar"))];
            var r := Run(Init, [StartTag("div", sidebar), StartTag("br", []), EndTag("div"),
                                StartTag("p", []), Data("keep"), EndTag("p"), EndTag("body")]);
            && r.out == ""
            && r.stack == []
            && r.ignore
  {
    var sidebar := [Attr("class", Some("sidebar"))];
    assert GetAttr(sidebar, "class") == Some("sidebar");
    assert GetAttr([], "class") == None;
    VoidElementOutlivesSuppressor(Init, sidebar, "br", [], "p", [], "keep", "body", []);
    assert [StartTag("div", sidebar), StartTag("br", []), EndTag("div"),
            StartTag("p", []), Data("keep"), EndTag("p"), EndTag("body")] + []
           == [StartTag("div", sidebar), StartTag("br", []), EndTag("div"),
               StartTag("p", []), Data("keep"), EndTag("p"), EndTag("body")];
  }

  /** The word of the leak example holds no whitespace. */
  lemma LeakIsWord(w: string)
    requires w == "leak"
    ensures forall i :: 0 <= i < |w| ==> !IsSpace(w[i])
  {
    forall i | 0 <= i < |w|
      ensures !IsSpace(w[i])
    {
      assert w[i] in {'l', 'e', 'a', 'k'};
    }
  }

  /** A text that does not open with whitespace is appended as it is. */
  lemma AppendWord(out: string, w: string)
    requires |w| > 0 && !IsSpace(w[0])
    ensures Append(out, w) == out + w
  {
    assert !IsBlank(w[0]) && !StartsWithNewline(w);
  }

  /** A single word goes through the generic path unchanged. */
  lemma WordChunk(w: string)
    requires forall i :: 0 <= i < |w| ==> !IsSpace(w[i])
    ensures Squeeze(LStrip(w)) == w
  {
    assert w == [] || !IsSpace(w[0]);
    assert LStrip(w) == w;
    assert IsSqueezed(w);
    SqueezeFixesSqueezed(w);
  }
}
