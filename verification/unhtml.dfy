/** `ArtixNewsParser.unhtml`: a fresh parser fed one document's events. */
module Unhtml {
  import opened Text
  import opened Parser
  import opened RunFacts

  /** The text of a document given as the tokenizer's events. It never holds
      more than one blank line in a row. */
  function Unhtml(events: seq<Event>): (r: string)
    ensures NoTripleNewline(r)
  {
    RunNoTriple(Init, events);
    Run(Init, events).out
  }

  /** Of a well-nested document nothing is left open at the end. */
  lemma BalancedDocumentClosesAll(events: seq<Event>)
    requires Balanced(events)
    ensures Run(Init, events).stack == []
  {
    BalancedKeepsStack(Init, events);
  }
}
