/**
 * The planner's action: a union discriminated by `type` ("search", "scrape" or
 * "answer"), each variant carrying the base fields `title` and `description`.
 * The base fields are optional in the type because the planner's fallback
 * actions omit them; `SchemaValid` is what the decision schema accepts.
 */
module OutputSchema {
  import opened Wrappers

  datatype ActionKind =
    | Search(query: string)
    | Scrape(urls: seq<string>)
    | Answer

  datatype Action = Action(kind: ActionKind, title: Option<string>, description: Option<string>)

  /** The discriminator `type` of an action. */
  function TypeTag(a: Action): (tag: string)
    ensures tag == "search" || tag == "scrape" || tag == "answer"
    ensures (tag == "search" <==> a.kind.Search?) && (tag == "scrape" <==> a.kind.Scrape?)
      && (tag == "answer" <==> a.kind.Answer?)
  {
    match a.kind
    case Search(_) => "search"
    case Scrape(_) => "scrape"
    case Answer => "answer"
  }

  /** The field constraint every action obeys: a scrape names at least one URL. */
  predicate WellFormed(a: Action) {
    a.kind.Scrape? ==> |a.kind.urls| >= 1
  }

  /** What the schema accepts from the decision service: a well-formed action
      carrying both base fields. */
  predicate SchemaValid(a: Action) {
    WellFormed(a) && a.title.Some? && a.description.Some?
  }

  /** Schema acceptance, spelled out per variant. */
  lemma SchemaValidCases(a: Action)
    ensures SchemaValid(a) ==> a.title.Some? && a.description.Some?
    ensures a.kind.Scrape? ==> (SchemaValid(a) <==> |a.kind.urls| >= 1 && a.title.Some? && a.description.Some?)
    ensures !a.kind.Scrape? ==> (SchemaValid(a) <==> a.title.Some? && a.description.Some?)
  {
  }
}
