/** The tracing filter deciding which spans are exported. */
module Instrumentation {
  import opened JsStrings

  datatype Span = Span(instrumentationScopeName: string, name: string)

  const UnnamedTrace := "Unnamed trace"

  /** Framework spans and spans without a real name are dropped. */
  function ShouldExportSpan(span: Span): bool {
    if span.instrumentationScopeName == "next.js" then false
    else if span.name == "" || span.name == UnnamedTrace || Trim(span.name) == "" then false
    else true
  }

  /** A span is exported exactly when it is not a framework span, is not the
      placeholder trace, and its name has a character other than whitespace. */
  lemma ShouldExportSpanIff(span: Span)
    ensures ShouldExportSpan(span) <==>
      && span.instrumentationScopeName != "next.js"
      && span.name != "Unnamed trace"
      && exists i :: 0 <= i < |span.name| && !IsWhitespace(span.name[i])
  {
    TrimEmptyIffWhitespace(span.name);
  }
}
