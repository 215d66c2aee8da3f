/** The HTML-to-text converter of artix_news.py (`ArtixNewsParser`) as a
    deterministic state machine over the tokenizer's events. The tokenizer
    itself is not modelled: a document is the sequence of events it reports. */
module Parser {
  import opened Text

  datatype Option<T> = None | Some(value: T)

  /** One attribute as the tokenizer reports it; a bare attribute
      (`<div hidden>`) has no value. */
  datatype Attr = Attr(name: string, value: Option<string>)

  /** An open element on the context stack. */
  datatype Frame = Frame(tag: string, attrs: seq<Attr>)

  datatype Event =
    | StartTag(tag: string, attrs: seq<Attr>)
    | EndTag(tag: string)
    | Data(text: string)

  /** The parser's fields: `out`, `_stack`, `_inside_pre` and `_ignore`. */
  datatype State = State(out: string, stack: seq<Frame>, insidePre: bool, ignore: bool)

  /** A freshly constructed parser. */
  const Init: State := State("", [], false, false)

  /** The list-item marker: a bullet (U+2022) between two spaces. */
  const Bullet: string := " \U{2022} "

  /** `_get_attr`: the value of the first attribute called `key`. Python's
      `None` stands both for "no such attribute" and for "attribute without
      a value", and so does `None` here. */
  function GetAttr(attrs: seq<Attr>, key: string): (r: Option<string>)
    ensures (forall i :: 0 <= i < |attrs| ==> attrs[i].name != key) ==> r == None
    ensures forall i :: (0 <= i < |attrs| && attrs[i].name == key &&
                         (forall j :: 0 <= j < i ==> attrs[j].name != key)) ==> r == attrs[i].value
    decreases |attrs|
  {
    if |attrs| == 0 then None
    else if attrs[0].name == key then attrs[0].value
    else GetAttr(attrs[1..], key)
  }

  /** The attributes of a `div` whose subtree is left out of the text:
      its (first) `class` is exactly `right` or `sidebar`. */
  predicate IsSuppressing(attrs: seq<Attr>) {
    GetAttr(attrs, "class") in {Some("right"), Some("sidebar")}
  }

  /** `_append`: whitespace-aware concatenation. Spaces and tabs at the join
      are squeezed, and a newline meeting a newline caps the run at two. */
  function Append(out: string, text: string): (r: string)
    ensures text == [] ==> r == out
    ensures |text| > 0 && |out| > 0 && IsSpace(out[|out| - 1]) && IsBlank(text[0]) ==>
              r == RStripBlanks(out) + text
    ensures |text| > 0 && EndsWithNewline(out) && StartsWithNewline(text) ==>
              r == RStrip(out) + "\n\n" + LStripNewlines(text)
    ensures !(|out| > 0 && IsSpace(out[|out| - 1]) && |text| > 0 && IsBlank(text[0])) &&
            !(EndsWithNewline(out) && StartsWithNewline(text)) ==>
              r == out + text
  {
    if |text| == 0 then out
    else
      var lastIsSpace := |out| > 0 && IsSpace(out[|out| - 1]);
      if lastIsSpace then
        if IsBlank(text[0]) then RStripBlanks(out) + text
        else if out[|out| - 1] == '\n' && text[0] == '\n' then
          RStrip(out) + "\n\n" + LStripNewlines(text)
        else out + text
      else out + text
  }

  /** `_append_raw`: plain concatenation. */
  function AppendRaw(out: string, text: string): string {
    out + text
  }

  /** The tag of the innermost open element, or the empty tag when none is open. */
  function TopTag(s: State): string {
    if |s.stack| > 0 then s.stack[|s.stack| - 1].tag else ""
  }

  /** What an opening tag contributes to the text when output is enabled. */
  function OpenMarker(tag: string): string {
    if tag == "a" then "<"
    else if tag == "br" then "\n"
    else if tag == "code" then "\n\n"
    else if tag == "li" then Bullet
    else ""
  }

  /** What a closing tag contributes to the text when output is enabled. */
  function CloseMarker(tag: string): string {
    if tag in {"p", "div"} then "\n\n"
    else if tag == "a" then ">"
    else if tag in {"li", "ul", "ol", "code"} then "\n"
    else if tag == "pre" then "\n"
    else ""
  }

  /** `handle_starttag` */
  function HandleStartTag(s: State, tag: string, attrs: seq<Attr>): (r: State)
    ensures r.stack == s.stack + [Frame(tag, attrs)]
    ensures r.ignore <==> s.ignore || (tag == "div" && IsSuppressing(attrs))
    ensures r.insidePre <==> s.insidePre || (!s.ignore && tag == "pre")
    ensures r.out == (if s.ignore then s.out else Append(s.out, OpenMarker(tag)))
  {
    var pushed := s.(stack := s.stack + [Frame(tag, attrs)]);
    if s.ignore then pushed
    else if tag == "a" then pushed.(out := Append(s.out, "<"))
    else if tag == "br" then pushed.(out := Append(s.out, "\n"))
    else if tag == "code" then pushed.(out := Append(s.out, "\n\n"))
    else if tag == "pre" then pushed.(insidePre := true)
    else if tag == "div" && IsSuppressing(attrs) then pushed.(ignore := true)
    else if tag == "li" then pushed.(out := Append(s.out, Bullet))
    else pushed
  }

  /** `handle_endtag`: pops whatever frame is on top, whatever its tag. */
  function HandleEndTag(s: State, tag: string): (r: State)
    ensures |s.stack| > 0 ==> r.stack == s.stack[..|s.stack| - 1]
    ensures |s.stack| == 0 ==> r.stack == []
    ensures r.ignore <==>
              s.ignore && !(tag == "div" && |s.stack| > 0 && IsSuppressing(s.stack[|s.stack| - 1].attrs))
    ensures r.ignore ==> r.out == s.out && r.insidePre == s.insidePre
    ensures !r.ignore ==> r.out == Append(s.out, CloseMarker(tag))
    ensures r.insidePre <==> s.insidePre && (r.ignore || tag != "pre")
  {
    var attrs := if |s.stack| > 0 then s.stack[|s.stack| - 1].attrs else [];
    var popped := if |s.stack| > 0 then s.stack[..|s.stack| - 1] else s.stack;
    var ignore := if tag == "div" && IsSuppressing(attrs) then false else s.ignore;
    var next := s.(stack := popped, ignore := ignore);
    if ignore then next
    else if tag in {"p", "div"} then next.(out := Append(s.out, "\n\n"))
    else if tag == "a" then next.(out := Append(s.out, ">"))
    else if tag in {"li", "ul", "ol", "code"} then
      next.(out := Append(s.out, "\n"))
    else if tag == "pre" then next.(insidePre := false, out := Append(s.out, "\n"))
    else next
  }

  /** `handle_data`. The text is left-stripped before anything else, so the
      lone-space guard of the generic path can never fire. */
  function HandleData(s: State, text: string): (r: State)
    ensures r.stack == s.stack && r.ignore == s.ignore && r.insidePre == s.insidePre
    ensures s.ignore || TopTag(s) == "h0" ==> r.out == s.out
    ensures !s.ignore && !s.insidePre && TopTag(s) == "script" ==> r.out == s.out
    ensures !s.ignore && TopTag(s) != "h0" && (s.insidePre || TopTag(s) == "code") ==>
              r.out == s.out + Indent(LStrip(text))
    ensures !s.ignore && !s.insidePre && TopTag(s) == "pre" ==> r.out == Append(s.out, "\n")
    ensures !s.ignore && !s.insidePre && TopTag(s) !in {"h0", "code", "pre", "script"} ==>
              r.out == Append(s.out, Squeeze(LStrip(text)))
  {
    var tag := TopTag(s);
    var data := LStrip(text);
    if s.ignore || tag == "h0" then s
    else if s.insidePre || tag == "code" then s.(out := AppendRaw(s.out, Indent(data)))
    else if tag == "pre" then s.(out := Append(s.out, "\n"))
    else if tag == "script" then s
    else
      var squeezed := Squeeze(data);
      if squeezed != " " || (|s.out| > 0 && !EndsWithNewline(s.out)) then
        s.(out := Append(s.out, squeezed))
      else s
  }

  /** One tokenizer event, dispatched to its handler. */
  function Step(s: State, e: Event): (r: State)
    ensures e.StartTag? ==> r.stack == s.stack + [Frame(e.tag, e.attrs)]
    ensures e.EndTag? ==> r.stack == if |s.stack| > 0 then s.stack[..|s.stack| - 1] else []
    ensures e.Data? ==> r.stack == s.stack
    ensures !s.ignore && r.ignore ==> e.StartTag? && e.tag == "div" && IsSuppressing(e.attrs)
    ensures s.ignore && !r.ignore ==>
              e.EndTag? && e.tag == "div" && |s.stack| > 0 && IsSuppressing(s.stack[|s.stack| - 1].attrs)
    ensures s.ignore && r.ignore ==> r.out == s.out && r.insidePre == s.insidePre
  {
    match e
    case StartTag(tag, attrs) => HandleStartTag(s, tag, attrs)
    case EndTag(tag) => HandleEndTag(s, tag)
    case Data(text) => HandleData(s, text)
  }

  /** Feeding a list of events: a left fold of `Step`. */
  function Run(s: State, events: seq<Event>): State
    decreases |events|
  {
    if |events| == 0 then s else Run(Step(s, events[0]), events[1..])
  }
}
