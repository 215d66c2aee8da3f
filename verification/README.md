# Artix News `unhtml` — a Dafny model

`artix_news.py` turns the HTML of the Artix Linux news page into plain text
with `ArtixNewsParser`, a subclass of Python's `html.parser.HTMLParser`.
Its `unhtml` class method builds a fresh parser, feeds it the document and
returns the text in the parser's `out` field.

This project models that converter as a deterministic state machine. The
HTML tokenizer is not part of the model: a document is the sequence of
events it reports, `StartTag(tag, attrs)`, `EndTag(tag)` and `Data(text)`.
The parser state `State(out, stack, insidePre, ignore)` mirrors the fields
`out`, `_stack`, `_inside_pre` and `_ignore`. Each handler is a pure
function from state to state, and `Unhtml` is a left fold of `Step`,
starting from the fresh state `Init`.

Modules, one per file:

- `Text` (`text.dfy`) — the string operations the parser borrows from
  Python, written out:
  - `str.isspace`, with its exact set of code points;
  - `rstrip()`, `rstrip(' \t')`, `lstrip()` and `lstrip('\n')`;
  - `re.sub(r'\s+', ' ', ...)`;
  - `split('\n')` and `'\n'.join`;
  - the "visible content" of a text (its non-whitespace characters).
- `TextFacts` (`text_facts.dfy`) — lemmas about those operations.
- `Parser` (`parser.dfy`) — the state, `_get_attr`, `_append`,
  `_append_raw` and the three handlers.
- `AppendFacts` (`append_facts.dfy`) — what `_append` guarantees.
- `RunFacts` (`run_facts.dfy`) — properties of the data paths and of single
  steps, and invariants of whole event sequences: stack discipline,
  suppression, committed output and the newline cap.
- `Unhtml` (`unhtml.dfy`) — `unhtml` itself.

The code is modelled as written, quirks included:

- Any `</div>` whose popped frame has class `right` or `sidebar` clears
  `_ignore`. Closing a suppressing `div` nested in another one therefore
  turns output back on while the outer one is still open
  (`RunFacts.NestedSuppressionLeaks`).
- An end tag pops whatever frame is on top, whatever its tag.
- The tokenizer reports no end tag for a void element written without a
  slash, such as `<br>`, `<img>` or `<hr>`, so its frame stays on the
  stack. (A self-closing `<br/>` goes to `handle_startendtag`, whose default
  calls `handle_starttag` and then `handle_endtag`, so its frame is popped
  at once.) Inside a `div.sidebar` the closing `</div>` then pops the void
  element's frame instead of the sidebar's, and suppression goes on. Once
  some other end tag pops the sidebar frame, suppression ends only at a
  `</div>` that pops a frame whose first `class` is `right` or `sidebar`.
  Usually that is the `</div>` of a later `div.right` or `div.sidebar`
  (`RunFacts.SuppressorEndsSuppression`). With the stack shifted it can
  also be the `</div>` of an enclosing element
  (`RunFacts.MisalignedDivEndsSuppression`). Everything before that
  `</div>` is lost (`RunFacts.VoidElementOutlivesSuppressor`,
  `RunFacts.VoidElementKeepsSuppression`).
- `script` text is only discarded outside `pre`. Inside `pre` the raw branch
  comes first.
- Data is left-stripped before the generic path runs. The guard against a
  lone space at a paragraph start (`squeezed_data != ' '`) therefore never
  sees a lone space (`RunFacts.LoneSpaceGuardIsDead`).

The comment at artix_news.py:137 says the guard is there to keep spaces
from starting a paragraph. Because of the earlier left-strip, no data chunk
can start with a space in the first place.

## Model

| member | source | states |
|---|---|---|
| Text.TrimEnd | artix_news.py:58 | `rstrip`: the result is a prefix of the input, every character dropped is a stripped one, and the result does not end in one |
| Text.TrimStart | artix_news.py:117 | `lstrip`: the result is a suffix of the input, every character dropped is a stripped one, the result does not start with one, and a leading stripped character is always dropped |
| Text.Squeeze | artix_news.py:32-34 | the result has no whitespace but isolated single spaces. It has the same visible content as the input, is empty exactly when the input is, and starts with whitespace exactly when the input does |
| TextFacts.SqueezeSpaceRun | artix_news.py:32-34 | a whole run of whitespace of any kind, before a non-space or the end, becomes exactly one space |
| TextFacts.SqueezeKeepsSolid | artix_news.py:32-34 | a non-whitespace character is kept in place; with `SqueezeSpaceRun` this fixes the result of the substitution for every input |
| TextFacts.SqueezeIdempotent | artix_news.py:32-34 | squeezing twice is squeezing once |
| Text.ContentSkipsLeadingSpace | artix_news.py:117 | left-stripping keeps the visible content |
| Text.Lines | artix_news.py:129 | `split('\n')` gives at least one piece, and no piece holds a newline |
| TextFacts.JoinLinesOfLines | artix_news.py:129 | joining the pieces of a split with newlines gives back the text |
| TextFacts.LinesOfJoinLines | artix_news.py:129 | splitting a join of newline-free lines gives back the lines |
| TextFacts.IndentLines | artix_news.py:129 | the lines of the indented text are the original lines, each with one tab in front |
| TextFacts.IndentKeepsNewlineCount | artix_news.py:129 | indenting adds no newline and removes none |
| TextFacts.IndentShape | artix_news.py:129 | the indented text starts with a tab and holds no run of three newlines |
| Parser.GetAttr | artix_news.py:37-43 | the value of the first attribute with the key, and `None` when no attribute has it |
| Parser.Append | artix_news.py:45-66 | an empty text changes nothing. A space or tab after trailing whitespace first strips the trailing spaces and tabs. A newline meeting a newline gives `rstrip(out) + "\n\n" + text.lstrip('\n')`. Every other case is plain concatenation |
| AppendFacts.AppendKeepsCommitted | artix_news.py:45-66 | the old output without its trailing whitespace is a prefix of the new output |
| AppendFacts.AppendKeepsText | artix_news.py:54-66 | the appended text, less any leading newlines, ends the new output |
| AppendFacts.AppendKeepsContent | artix_news.py:45-66 | the visible content of the result is that of the old output followed by that of the text, so nothing is lost or reordered |
| AppendFacts.AppendNoTriple | artix_news.py:60-62 | appending never creates a run of three newlines |
| AppendFacts.AppendNoBlankPair | artix_news.py:54-58 | appending never puts two spaces or tabs side by side |
| AppendFacts.ParagraphBreakShape | artix_news.py:60-62 | after a paragraph break the output is some `x + "\n\n"` where `x` strips to what the old output strips to |
| AppendFacts.ParagraphBreakSettles | artix_news.py:60-62 | two paragraph breaks leave the stripped output plus one blank line, and further breaks change nothing |
| Parser.HandleStartTag | artix_news.py:71-87 | always pushes one frame, even while ignoring. While ignoring nothing else changes. Otherwise it appends the tag's marker, enters `pre` mode on `pre`, and starts ignoring on a suppressing `div` |
| Parser.HandleEndTag | artix_news.py:89-109 | pops one frame, and nothing on an empty stack. Suppression ends exactly on `</div>` over a suppressing frame. While ignoring, output and `pre` mode are unchanged. Otherwise it appends the tag's marker, and `</pre>` leaves `pre` mode |
| Parser.HandleData | artix_news.py:111-139 | never changes the stack or the flags. Text is dropped while ignoring, under `h0`, and under `script` outside `pre`. Inside `pre`/`code` it is appended raw and indented. Directly under `pre` outside `pre` mode it becomes a newline. Elsewhere it is left-stripped, squeezed and appended |
| Parser.Step | artix_news.py:71-139 | the stack effect of each event kind. Suppression starts only on a suppressing `div` start tag and ends only on `</div>` over a suppressing frame. While it lasts, output and `pre` mode do not change |
| RunFacts.GenericChunkShape | artix_news.py:117-136 | the chunk the generic path appends is squeezed, does not start with whitespace, and has the visible content of the data |
| RunFacts.LoneSpaceGuardIsDead | artix_news.py:136-139 | the squeezed, left-stripped data is never a lone space, so the guard never drops anything |
| RunFacts.PreformattedDataChunk | artix_news.py:127-130 | inside `pre`/`code` the old output is kept as a prefix. The lines added are those of the left-stripped data with one tab each, and the newline count is kept |
| RunFacts.OtherStartTagIsSilent | artix_news.py:76-87 | a start tag outside the dispatch table only pushes its frame |
| RunFacts.OtherEndTagIsSilent | artix_news.py:101-109 | an end tag outside the dispatch table only pops a frame |
| RunFacts.StepKeepsCommitted | artix_news.py:71-139 | no event rewrites anything but the trailing whitespace of the output |
| RunFacts.StepNoTriple | artix_news.py:71-139 | no event creates a run of three newlines |
| RunFacts.RunConcat | artix_news.py:144-149 | feeding two event lists in turn is feeding their concatenation |
| RunFacts.RunKeepsCommitted | artix_news.py:144-149 | output followed by non-whitespace is never changed by later events |
| RunFacts.RunNoTriple | artix_news.py:144-149 | the output of any event sequence holds no run of three newlines |
| RunFacts.StackTracksDepth | artix_news.py:72-93 | while the markup never closes below a base, the stack grows and shrinks with the nesting depth and keeps the base at its bottom |
| RunFacts.BalancedKeepsStack | artix_news.py:72-93 | well-nested markup leaves the stack as it found it |
| RunFacts.SuppressedRun | artix_news.py:73-99 | while ignoring, and while no suppressing frame can be popped or pushed, output and `pre` mode are frozen and ignoring continues |
| RunFacts.SuppressedSubtree | artix_news.py:84-102 | a well-nested `div.right`/`div.sidebar` subtree with no nested suppressing element amounts to the single paragraph break of its closing tag |
| RunFacts.SuppressorEndsSuppression | artix_news.py:71-99 | while suppressed, a `div.right` or `div.sidebar` is still pushed, and its `</div>` pops it, ends suppression and writes a paragraph break, with the stack as before |
| RunFacts.NestedSuppressionEnds | artix_news.py:84-102 | from any state that is writing, a suppressing `div` opened inside another one ends suppression at its own `</div>`, leaving the outer frame open and a paragraph break written |
| RunFacts.NestedSuppressionWritesWord | artix_news.py:71-139 | from any state that is writing outside `pre` mode, a word of non-whitespace characters that follows a nested suppressing `div`, still inside the outer one, is written right after the inner one's paragraph break |
| RunFacts.NestedSuppressionLeaks | artix_news.py:95-96 | on a concrete page, the text after a nested suppressing `div` inside the outer `div.sidebar` is written |
| RunFacts.VoidElementOutlivesSuppressor | artix_news.py:89-99 | from any state that is writing, a suppressing `div` that contains an unclosed void element, followed by a closed element and an end tag other than `</div>`, leaves the state as it was except that suppression is still on |
| RunFacts.VoidElementKeepsSuppression | artix_news.py:89-99 | on a concrete page, a `<br>` inside a `div.sidebar` means that nothing after the sidebar on that page is written: the run ends with empty output, an empty stack and suppression still on |
| RunFacts.MisalignedDivEndsSuppression | artix_news.py:71-102 | from any state that is writing, with a void element left open inside a `div.right` inside a plain `div`, the `div.right`'s own `</div>` does not end suppression, and the plain `div`'s `</div>` does: it writes a paragraph break and leaves the plain frame open |
| Unhtml.Unhtml | artix_news.py:144-149 | the text of any document holds no run of three newlines |
| Unhtml.BalancedDocumentClosesAll | artix_news.py:144-149 | a well-nested document leaves no element open |

## Left out

- The HTML tokenizer (`html.parser.HTMLParser`, `feed`, the base-class
  constructor at artix_news.py:24). A document is given as its event
  sequence, so entity decoding and the splitting of text into `Data`
  events are not modelled. Neither is `feed` without `close()` holding
  back trailing text.
- The `error` hook (artix_news.py:141-142). It is driven by the tokenizer
  only.
- Fetching the page, decoding it and printing the result
  (artix_news.py:153-162). These are I/O.
- The commented-out `[News]` extraction (artix_news.py:122-125). It is not
  live code.
- News titles, dates, colouring and summary lines. None of these is in
  `artix_news.py`.
- Parser.GetAttr: attribute names are compared as given. The tokenizer
  lower-cases them before the handlers see them.
- Text.IsSpace: the whitespace set is that of Python's `str.isspace`.
  Python's `re` module uses the same set for `\s` in string patterns.
- Parser.AppendRaw: plain concatenation. It has no contract of its own and
  is covered through `Parser.HandleData`.
- RunFacts.SuppressedRun: it does not describe a run that opens another
  suppressing `div`. What happens then is shown by
  `RunFacts.NestedSuppressionEnds`.
- RunFacts.SuppressedSubtree: it covers only well-nested subtrees. A void
  element inside the subtree leaves a frame open, and then
  `RunFacts.VoidElementOutlivesSuppressor` describes what happens.
